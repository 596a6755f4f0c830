/**
  Reading a setting value: white space separates parts, quotes and backslashes protect characters, and a hash
  mark after white space starts a comment.
 */
module ValueGrammar {
  import opened Chars

  type Span = (int, int)

  datatype Error = EndAfterBackslash | Unterminated | HashNotSeparated

  datatype Result<T> = Ok(value: T) | Err(error: Error)

  /** The value so far, whether the next character begins a part, where the latest part began, and the parts
      that have ended. */
  datatype Val = Val(text: string, newPart: bool, start: int, parts: seq<Span>)
  {
    function Begun(): Val {
      if newPart then this.(newPart := false, start := |text|) else this
    }

    function Ended(): Val {
      if newPart then this else this.(newPart := true, parts := parts + [(start, |text|)])
    }

    function Plus(s: string): Val {
      this.(text := text + s)
    }

    /** At the end of the line the latest part is recorded, whether or not white space has ended it. */
    function AllParts(): seq<Span> {
      parts + [(start, |text|)]
    }
  }

  /** The rest after the closing quote, and the text inside added to `t`. */
  function ScanQuoted(s: string, t: string): (r: Result<(string, string)>)
    ensures r.Ok? ==> |r.value.0| < |s|
    decreases |s|
  {
    if s == [] then Err(Unterminated)
    else if s[0] == '"' then Ok((s[1..], t))
    else if s[0] == '\\' then
      if |s| == 1 then Err(EndAfterBackslash) else ScanQuoted(s[2..], t + [s[1]])
    else ScanQuoted(s[1..], t + [s[0]])
  }

  function Scan(s: string, v: Val): Result<Val>
    decreases |s|
  {
    if s == [] then Ok(v)
    else if s[0] == '"' then
      match ScanQuoted(s[1..], v.text)
      case Err(e) => Err(e)
      case Ok(p) => Scan(p.0, v.Begun().(text := p.1))
    else if s[0] == '\\' then
      if |s| == 1 then Err(EndAfterBackslash) else Scan(s[2..], v.Begun().Plus([s[1]]))
    else if IsSpace(s[0]) then
      var rest := s[SkipSpace(s, 0)..];
      if rest == [] || rest[0] == '#' then Ok(v.Ended()) else Scan(rest, v.Ended().Plus(" "))
    else if s[0] == '#' then Err(HashNotSeparated)
    else Scan(s[1..], v.Begun().Plus([s[0]]))
  }

  // ---------------------------------------------------------------- what can be written

  /** A character inside quotes, which may be escaped. */
  datatype Inner = Inner(c: char, escaped: bool)
  {
    predicate Valid() { escaped || (c != '"' && c != '\\') }
  }

  datatype Piece = Plain(c: char) | Escaped(c: char) | Quoted(inner: seq<Inner>)
  {
    ghost predicate Valid() {
      match this
      case Plain(c) => c != '"' && c != '\\' && c != '#' && !IsSpace(c)
      case Escaped(_) => true
      case Quoted(qs) => forall q :: q in qs ==> q.Valid()
    }
  }

  function WriteInner(qs: seq<Inner>): string {
    if qs == [] then [] else (if qs[0].escaped then ['\\', qs[0].c] else [qs[0].c]) + WriteInner(qs[1..])
  }

  function ReadInner(qs: seq<Inner>): string {
    if qs == [] then [] else [qs[0].c] + ReadInner(qs[1..])
  }

  function Write(p: Piece): string {
    match p
    case Plain(c) => [c]
    case Escaped(c) => ['\\', c]
    case Quoted(qs) => ['"'] + WriteInner(qs) + ['"']
  }

  function Read(p: Piece): string {
    match p
    case Plain(c) => [c]
    case Escaped(c) => [c]
    case Quoted(qs) => ReadInner(qs)
  }

  function WriteWord(w: seq<Piece>): string {
    if w == [] then [] else Write(w[0]) + WriteWord(w[1..])
  }

  /** What a word stands for. */
  function ReadWord(w: seq<Piece>): string {
    if w == [] then [] else Read(w[0]) + ReadWord(w[1..])
  }

  ghost predicate ValidWord(w: seq<Piece>) {
    w != [] && forall p :: p in w ==> p.Valid()
  }

  /** A word with the white space before it. */
  datatype Item = Item(gap: string, word: seq<Piece>)
  {
    ghost predicate Valid() { ValidWord(word) && forall c :: c in gap ==> IsSpace(c) }
  }

  function WriteAll(items: seq<Item>): string {
    if items == [] then [] else items[0].gap + WriteWord(items[0].word) + WriteAll(items[1..])
  }

  /** How the value goes on after more words: each is set apart by one space. */
  function Go(v: Val, items: seq<Item>): Val
    decreases |items|
  {
    if items == [] then v
    else
      Go(Gone(v, items[0]), items[1..])
  }

  lemma {:induction false} ScanInner(qs: seq<Inner>, rest: string, t: string)
    requires forall q :: q in qs ==> q.Valid()
    ensures ScanQuoted(WriteInner(qs) + ['"'] + rest, t) == Ok((rest, t + ReadInner(qs)))
  {
    var s := WriteInner(qs) + ['"'] + rest;
    if qs == [] {
      assert s[1..] == rest && t + [] == t;
    } else {
      assert qs[0] in qs;
      ScanInner(qs[1..], rest, t + [qs[0].c]);
      InnerParts(qs, rest, t);
      InnerStep(qs[0], WriteInner(qs[1..]) + ['"'] + rest, t);
    }
  }

  lemma InnerParts(qs: seq<Inner>, rest: string, t: string)
    requires qs != []
    ensures WriteInner(qs) + ['"'] + rest == WriteInner([qs[0]]) + (WriteInner(qs[1..]) + ['"'] + rest)
    ensures t + [qs[0].c] + ReadInner(qs[1..]) == t + ReadInner(qs)
  {
    FirstInner(qs);
    Regroup(WriteInner([qs[0]]), WriteInner(qs[1..]), ['"'], rest);
    Joins(t, [qs[0].c], ReadInner(qs[1..]));
  }

  lemma FirstInner(qs: seq<Inner>)
    requires qs != []
    ensures WriteInner(qs) == WriteInner([qs[0]]) + WriteInner(qs[1..])
  {
    assert [qs[0]][1..] == [];
  }

  lemma Joins(a: string, b: string, c: string)
    ensures a + b + c == a + (b + c)
  {
  }

  lemma Regroup(a: string, b: string, c: string, d: string)
    ensures a + b + c + d == a + (b + c + d)
  {
  }

  lemma InnerStep(q: Inner, more: string, t: string)
    requires q.Valid()
    ensures ScanQuoted(WriteInner([q]) + more, t) == ScanQuoted(more, t + [q.c])
  {
    var s := WriteInner([q]) + more;
    assert [q][1..] == [];
    if q.escaped {
      assert WriteInner([q]) == ['\\', q.c];
      assert s[2..] == more;
    } else {
      assert WriteInner([q]) == [q.c];
      assert s[1..] == more;
    }
  }

  lemma ScanPiece(p: Piece, rest: string, v: Val)
    requires p.Valid()
    ensures Scan(Write(p) + rest, v) == Scan(rest, v.Begun().Plus(Read(p)))
  {
    var s := Write(p) + rest;
    match p
    case Plain(c) =>
      assert s[1..] == rest;
    case Escaped(c) =>
      assert s[2..] == rest;
    case Quoted(qs) =>
      assert s[1..] == WriteInner(qs) + ['"'] + rest;
      ScanInner(qs, rest, v.text);
  }

  lemma WordParts(w: seq<Piece>, rest: string)
    requires w != []
    ensures WriteWord(w) + rest == Write(w[0]) + (WriteWord(w[1..]) + rest)
  {
  }

  lemma PlusPlus(v: Val, a: string, b: string)
    ensures v.Begun().Plus(a).Begun().Plus(b) == v.Begun().Plus(a + b)
  {
    assert v.text + a + b == v.text + (a + b);
  }

  lemma {:induction false} ScanWord(w: seq<Piece>, rest: string, v: Val)
    requires ValidWord(w)
    ensures Scan(WriteWord(w) + rest, v) == Scan(rest, v.Begun().Plus(ReadWord(w)))
  {
    assert w[0] in w;
    WordParts(w, rest);
    ScanPiece(w[0], WriteWord(w[1..]) + rest, v);
    if w[1..] == [] {
      assert WriteWord(w[1..]) + rest == rest && Read(w[0]) + [] == Read(w[0]);
    } else {
      ScanWord(w[1..], rest, v.Begun().Plus(Read(w[0])));
      PlusPlus(v, Read(w[0]), ReadWord(w[1..]));
    }
  }

  lemma WordStarts(w: seq<Piece>)
    requires ValidWord(w)
    ensures WriteWord(w) != [] && !IsSpace(WriteWord(w)[0]) && WriteWord(w)[0] != '#'
  {
    assert w[0] in w;
  }

  lemma SkipGap(gap: string, rest: string)
    requires (forall c :: c in gap ==> IsSpace(c)) && (rest == [] || !IsSpace(rest[0]))
    ensures SkipSpace(gap + rest, 0) == |gap|
  {
    SkipSpaceStops(gap + rest, 0);
    assert forall k :: 0 <= k < |gap| ==> (gap + rest)[k] in gap;
    assert rest != [] ==> (gap + rest)[|gap|] == rest[0];
  }

  function Gone(v: Val, x: Item): Val {
    Val(v.text + " " + ReadWord(x.word), false, |v.text| + 1, v.parts + [(v.start, |v.text|)])
  }

  lemma ItemParts(items: seq<Item>, tail: string)
    requires items != []
    ensures WriteAll(items) + tail == items[0].gap + (WriteWord(items[0].word) + (WriteAll(items[1..]) + tail))
  {
  }

  /** White space and a word. */
  lemma ScanItem(x: Item, rest: string, v: Val)
    requires x.Valid() && x.gap != [] && !v.newPart
    ensures Scan(x.gap + (WriteWord(x.word) + rest), v) == Scan(rest, Gone(v, x))
  {
    var s := WriteWord(x.word) + rest;
    WordStarts(x.word);
    assert s[0] == WriteWord(x.word)[0];
    SkipGap(x.gap, s);
    assert (x.gap + s)[0] in x.gap && (x.gap + s)[|x.gap|..] == s;
    var v1 := v.Ended().Plus(" ");
    ScanWord(x.word, rest, v1);
    assert v1.Begun().Plus(ReadWord(x.word)) == Gone(v, x);
  }

  /** White space at the end, or a comment. */
  ghost predicate Trailing(tail: string) {
    tail != [] && IsSpace(tail[0]) && (var rest := tail[SkipSpace(tail, 0)..]; rest == [] || rest[0] == '#')
  }

  /** All words, and what may follow them. */
  lemma {:induction false} ScanItems(items: seq<Item>, tail: string, v: Val)
    requires (forall x :: x in items ==> x.Valid() && x.gap != []) && !v.newPart && (tail == [] || Trailing(tail))
    ensures Scan(WriteAll(items) + tail, v) == Ok(if tail == [] then Go(v, items) else Go(v, items).Ended())
    decreases |items|
  {
    if items == [] {
      assert WriteAll(items) + tail == tail;
    } else {
      assert items[0] in items;
      ItemParts(items, tail);
      ScanItem(items[0], WriteAll(items[1..]) + tail, v);
      ScanItems(items[1..], tail, Gone(v, items[0]));
    }
  }

  // ---------------------------------------------------------------- parts

  function Words(items: seq<Item>): (r: seq<string>)
    ensures |r| == |items| && forall k :: 0 <= k < |items| ==> r[k] == ReadWord(items[k].word)
  {
    seq(|items|, k requires 0 <= k < |items| => ReadWord(items[k].word))
  }

  /** Part number `k` shows its argument, and a space and the next part follow. */
  ghost predicate PartOK(args: seq<string>, text: string, parts: seq<Span>, k: nat) {
    && k < |parts| == |args| && 0 <= parts[k].0 <= parts[k].1 <= |text| && text[parts[k].0..parts[k].1] == args[k]
    && (k + 1 < |parts| ==> parts[k].1 < |text| && parts[k+1].0 == parts[k].1 + 1 && text[parts[k].1] == ' ')
  }

  /** The arguments one after the other, set apart by single spaces, and where each of them is. */
  ghost predicate Joined(args: seq<string>, text: string, parts: seq<Span>) {
    && |parts| == |args| > 0 && parts[0].0 == 0 && parts[|parts|-1].1 == |text|
    && (forall k: nat {:trigger PartOK(args, text, parts, k)} :: k < |parts| ==> PartOK(args, text, parts, k))
  }

  lemma JoinedNext(args: seq<string>, text: string, parts: seq<Span>, arg: string)
    requires Joined(args, text, parts)
    ensures Joined(args + [arg], text + " " + arg, parts + [(|text| + 1, |text| + 1 + |arg|)])
  {
    var t, ps := text + " " + arg, parts + [(|text| + 1, |text| + 1 + |arg|)];
    forall k: nat | k < |ps| ensures PartOK(args + [arg], t, ps, k) {
      if k < |parts| {
        assert PartOK(args, text, parts, k);
        assert t[parts[k].0..parts[k].1] == text[parts[k].0..parts[k].1];
      }
    }
  }

  lemma WordsStep(items: seq<Item>, args: seq<string>)
    requires items != []
    ensures args + [ReadWord(items[0].word)] + Words(items[1..]) == args + Words(items)
  {
  }

  lemma GoneJoins(v: Val, x: Item, args: seq<string>)
    requires Joined(args, v.text, v.AllParts())
    ensures Joined(args + [ReadWord(x.word)], Gone(v, x).text, Gone(v, x).AllParts())
  {
    var arg := ReadWord(x.word);
    JoinedNext(args, v.text, v.AllParts(), arg);
    assert Gone(v, x).AllParts() == v.AllParts() + [(|v.text| + 1, |v.text| + 1 + |arg|)];
  }

  lemma {:induction false} GoJoins(v: Val, items: seq<Item>, args: seq<string>)
    requires !v.newPart && Joined(args, v.text, v.AllParts())
    ensures !Go(v, items).newPart && Joined(args + Words(items), Go(v, items).text, Go(v, items).AllParts())
    decreases |items|
  {
    if items == [] {
      assert args + Words(items) == args;
    } else {
      GoneJoins(v, items[0], args);
      GoJoins(Gone(v, items[0]), items[1..], args + [ReadWord(items[0].word)]);
      WordsStep(items, args);
    }
  }

  ghost predicate Written(items: seq<Item>) {
    items != [] && (forall x :: x in items ==> x.Valid()) && forall x :: x in items[1..] ==> x.gap != []
  }

  function Start(junk: int): Val { Val([], true, junk, []) }

  /** The first word, with what is before it. */
  lemma FirstItem(x: Item, rest: string, junk: int)
    requires x.Valid()
    ensures var line := x.gap + (WriteWord(x.word) + rest);
            Scan(line[SkipSpace(line, 0)..], Start(junk)) == Scan(rest, Val(ReadWord(x.word), false, 0, []))
  {
    var s := WriteWord(x.word) + rest;
    WordStarts(x.word);
    assert s[0] == WriteWord(x.word)[0];
    SkipGap(x.gap, s);
    assert (x.gap + s)[|x.gap|..] == s;
    ScanWord(x.word, rest, Start(junk));
    assert [] + ReadWord(x.word) == ReadWord(x.word);
  }

  lemma OneJoined(arg: string)
    ensures Joined([arg], arg, [(0, |arg|)])
  {
    assert arg[0..|arg|] == arg;
    assert PartOK([arg], arg, [(0, |arg|)], 0);
  }

  /** The value after all words, before what may follow them. */
  function Value(items: seq<Item>): Val
    requires items != []
  {
    Go(Val(ReadWord(items[0].word), false, 0, []), items[1..])
  }

  lemma ScanAll(items: seq<Item>, tail: string, junk: int)
    requires Written(items) && (tail == [] || Trailing(tail))
    ensures var line := WriteAll(items) + tail;
            Scan(line[SkipSpace(line, 0)..], Start(junk)) ==
              Ok(if tail == [] then Value(items) else Value(items).Ended())
    ensures !Value(items).newPart && Joined(Words(items), Value(items).text, Value(items).AllParts())
  {
    var arg := ReadWord(items[0].word);
    var v := Val(arg, false, 0, []);
    assert items[0] in items && forall x :: x in items[1..] ==> x in items;
    ItemParts(items, tail);
    FirstItem(items[0], WriteAll(items[1..]) + tail, junk);
    ScanItems(items[1..], tail, v);
    OneJoined(arg);
    assert v.AllParts() == [(0, |arg|)];
    GoJoins(v, items[1..], [arg]);
    WordsStep(items, []);
    assert [] + [arg] == [arg] && [] + Words(items) == Words(items);
  }

  /** Every way of writing words, quoted and escaped as one likes, is read back as those words, and the positions of
      the parts are exact. */
  lemma ReadsBack(items: seq<Item>, junk: int)
    requires Written(items)
    ensures var line := WriteAll(items); var r := Scan(line[SkipSpace(line, 0)..], Start(junk));
            r.Ok? && !r.value.newPart && Joined(Words(items), r.value.text, r.value.AllParts())
  {
    ScanAll(items, [], junk);
    assert WriteAll(items) + [] == WriteAll(items);
  }

  /** After white space at the end of the line, with or without a comment, the value is the same but the last part is
      listed twice. */
  lemma TrailingRepeatsLast(items: seq<Item>, tail: string, junk: int)
    requires Written(items) && Trailing(tail)
    ensures var line := WriteAll(items); var a := Scan(line[SkipSpace(line, 0)..], Start(junk));
            var line' := line + tail; var b := Scan(line'[SkipSpace(line', 0)..], Start(junk));
            && a.Ok? && b.Ok? && b.value.text == a.value.text
            && b.value.AllParts() == a.value.AllParts() + [a.value.AllParts()[|a.value.AllParts()|-1]]
  {
    ScanAll(items, [], junk);
    assert WriteAll(items) + [] == WriteAll(items);
    ScanAll(items, tail, junk);
  }

  // ---------------------------------------------------------------- every line that can be read

  lemma {:induction false} UnscanQuoted(s: string, t: string) returns (qs: seq<Inner>)
    requires ScanQuoted(s, t).Ok?
    ensures s == WriteInner(qs) + ['"'] + ScanQuoted(s, t).value.0 && forall q :: q in qs ==> q.Valid()
    decreases |s|
  {
    if s[0] == '"' {
      qs := [];
    } else if s[0] == '\\' {
      var more := UnscanQuoted(s[2..], t + [s[1]]);
      qs := [Inner(s[1], true)] + more;
      assert s == ['\\', s[1]] + s[2..];
      InnerFirst(Inner(s[1], true), more, ScanQuoted(s, t).value.0);
    } else {
      var more := UnscanQuoted(s[1..], t + [s[0]]);
      qs := [Inner(s[0], false)] + more;
      assert s == [s[0]] + s[1..];
      InnerFirst(Inner(s[0], false), more, ScanQuoted(s, t).value.0);
    }
  }

  lemma InnerFirst(q: Inner, more: seq<Inner>, rest: string)
    ensures (if q.escaped then ['\\', q.c] else [q.c]) + (WriteInner(more) + ['"'] + rest) ==
            WriteInner([q] + more) + ['"'] + rest
  {
    assert ([q] + more)[1..] == more;
    Regroup(if q.escaped then ['\\', q.c] else [q.c], WriteInner(more), ['"'], rest);
  }

  ghost predicate ValidPieces(w: seq<Piece>) {
    forall p :: p in w ==> p.Valid()
  }

  ghost predicate Spaced(items: seq<Item>) {
    forall x :: x in items ==> x.Valid() && x.gap != []
  }

  /** One more piece in front of what was found in the rest. */
  lemma PieceFirst(s: string, p: Piece, w: seq<Piece>, items: seq<Item>, tail: string, rest: string)
    requires s == Write(p) + rest && rest == WriteWord(w) + WriteAll(items) + tail && ValidPieces(w) && p.Valid()
    ensures s == WriteWord([p] + w) + WriteAll(items) + tail && ValidPieces([p] + w)
  {
    assert ([p] + w)[1..] == w;
    Joins(Write(p), WriteWord(w), WriteAll(items));
    Joins(Write(p), WriteWord(w) + WriteAll(items), tail);
  }

  lemma ItemFirst(s: string, gap: string, w: seq<Piece>, items: seq<Item>, tail: string, rest: string)
    requires s == gap + rest && rest == WriteWord(w) + WriteAll(items) + tail && Spaced(items)
    requires gap != [] && (forall c :: c in gap ==> IsSpace(c)) && ValidWord(w)
    ensures s == WriteWord([]) + WriteAll([Item(gap, w)] + items) + tail && Spaced([Item(gap, w)] + items)
  {
    var all := [Item(gap, w)] + items;
    assert all[1..] == items && WriteWord([]) == [];
    Joins(gap, WriteWord(w), WriteAll(items));
    Joins(gap, WriteWord(w) + WriteAll(items), tail);
    assert [] + WriteAll(all) == WriteAll(all);
  }

  /** Whatever the reader accepts is the rest of a word, more words, and white space or a comment at the end. */
  lemma {:induction false} Unscan(s: string, v: Val) returns (w: seq<Piece>, items: seq<Item>, tail: string)
    requires Scan(s, v).Ok?
    ensures s == WriteWord(w) + WriteAll(items) + tail && ValidPieces(w) && Spaced(items)
            && (tail == [] || Trailing(tail))
    ensures s != [] && !IsSpace(s[0]) ==> w != []
    decreases |s|
  {
    w, items, tail := [], [], [];
    if s == [] {
    } else if s[0] == '"' {
      var q := ScanQuoted(s[1..], v.text).value;
      var qs := UnscanQuoted(s[1..], v.text);
      var more;
      more, items, tail := Unscan(q.0, v.Begun().(text := q.1));
      assert s == ['"'] + s[1..];
      Joins(['"'], WriteInner(qs) + ['"'], q.0);
      Joins(['"'], WriteInner(qs), ['"']);
      PieceFirst(s, Quoted(qs), more, items, tail, q.0);
      w := [Quoted(qs)] + more;
    } else if s[0] == '\\' {
      var more;
      more, items, tail := Unscan(s[2..], v.Begun().Plus([s[1]]));
      assert s == ['\\', s[1]] + s[2..];
      PieceFirst(s, Escaped(s[1]), more, items, tail, s[2..]);
      w := [Escaped(s[1])] + more;
    } else if IsSpace(s[0]) {
      items, tail := UnscanSpace(s, v);
    } else {
      var more;
      more, items, tail := Unscan(s[1..], v.Begun().Plus([s[0]]));
      assert s == [s[0]] + s[1..];
      PieceFirst(s, Plain(s[0]), more, items, tail, s[1..]);
      w := [Plain(s[0])] + more;
    }
  }

  lemma UnscanSpace(s: string, v: Val) returns (items: seq<Item>, tail: string)
    requires Scan(s, v).Ok? && s != [] && IsSpace(s[0])
    ensures s == WriteWord([]) + WriteAll(items) + tail && Spaced(items) && (tail == [] || Trailing(tail))
    decreases |s|, 0
  {
    var gap, rest := CutGap(s);
    if rest == [] || rest[0] == '#' {
      items, tail := [], s;
      OnlyTail(s);
    } else {
      var w, more;
      w, more, tail := Unscan(rest, v.Ended().Plus(" "));
      ItemFirst(s, gap, w, more, tail, rest);
      items := [Item(gap, w)] + more;
    }
  }

  lemma OnlyTail(s: string)
    ensures s == WriteWord([]) + WriteAll([]) + s
  {
  }

  /** The white space at the beginning, and the rest. */
  lemma CutGap(s: string) returns (gap: string, rest: string)
    ensures s == gap + rest && rest == s[SkipSpace(s, 0)..] && |gap| == SkipSpace(s, 0)
    ensures (forall c :: c in gap ==> IsSpace(c)) && (rest != [] ==> !IsSpace(rest[0]))
  {
    SkipSpaceStops(s, 0);
    gap, rest := s[..SkipSpace(s, 0)], s[SkipSpace(s, 0)..];
  }

  /** Every line that is read and is not blank consists of words, and white space or a comment at the end. */
  lemma EveryLine(line: string, junk: int) returns (items: seq<Item>, tail: string)
    requires SkipSpace(line, 0) < |line| && Scan(line[SkipSpace(line, 0)..], Start(junk)).Ok?
    ensures Written(items) && line == WriteAll(items) + tail && (tail == [] || Trailing(tail))
  {
    var gap, rest := CutGap(line);
    var w, more;
    w, more, tail := Unscan(rest, Start(junk));
    items := [Item(gap, w)] + more;
    FirstWritten(gap, w, more, tail);
  }

  lemma FirstWritten(gap: string, w: seq<Piece>, more: seq<Item>, tail: string)
    requires (forall c :: c in gap ==> IsSpace(c)) && ValidWord(w) && Spaced(more)
    ensures var items := [Item(gap, w)] + more;
            Written(items) && gap + (WriteWord(w) + WriteAll(more) + tail) == WriteAll(items) + tail
  {
    var items := [Item(gap, w)] + more;
    assert items[1..] == more;
    assert forall x :: x in items ==> x == items[0] || x in more;
    Joins(gap, WriteWord(w), WriteAll(more));
    Joins(gap, WriteWord(w) + WriteAll(more), tail);
  }

  /** Nothing follows the last word. */
  ghost predicate EndsWithWord(line: string) {
    exists items :: Written(items) && WriteAll(items) == line
  }

  /** The parts show arguments one after the other. */
  ghost predicate Exact(text: string, parts: seq<Span>) {
    exists args :: Joined(args, text, parts)
  }

  lemma NextStart(args: seq<string>, text: string, parts: seq<Span>, k: nat)
    requires Joined(args, text, parts) && k + 1 < |parts|
    ensures parts[k].0 <= parts[k].1 && parts[k+1].0 == parts[k].1 + 1
  {
    assert PartOK(args, text, parts, k);
  }

  /** For every line that is read and is not blank: the positions of the parts are exact if and only if the line ends
      with a word. Otherwise, after white space or a comment, the last part is listed twice. */
  lemma ExactPositions(line: string, junk: int)
    requires SkipSpace(line, 0) < |line| && Scan(line[SkipSpace(line, 0)..], Start(junk)).Ok?
    ensures var v := Scan(line[SkipSpace(line, 0)..], Start(junk)).value; var parts := v.AllParts(); var n := |parts|;
            && (Exact(v.text, parts) <==> EndsWithWord(line))
            && (!EndsWithWord(line) ==> n > 1 && parts[n-1] == parts[n-2] && Exact(v.text, parts[..n-1]))
  {
    var items, tail := EveryLine(line, junk);
    ScanAll(items, tail, junk);
    var v := Value(items);
    if tail == [] {
      assert WriteAll(items) + tail == WriteAll(items);
    } else {
      var parts := v.Ended().AllParts();
      var n := |parts|;
      assert parts[..n-1] == v.AllParts();
      if args :| Joined(args, v.text, parts) {
        NextStart(args, v.text, parts, n - 2);
      }
      if other :| Written(other) && WriteAll(other) == line {
        assert WriteAll(other) + [] == line;
        ScanAll(other, [], junk);
      }
    }
  }
}

/** One way to write arguments: each in quotes, with quotes and backslashes escaped. */
module Quoting {
  import opened Chars
  import opened ValueGrammar

  function Protect(a: string): seq<Inner> {
    if a == [] then [] else [Inner(a[0], a[0] == '"' || a[0] == '\\')] + Protect(a[1..])
  }

  lemma {:induction false} ProtectReads(a: string)
    ensures ReadInner(Protect(a)) == a && forall q :: q in Protect(a) ==> q.Valid()
  {
    if a != [] {
      ProtectReads(a[1..]);
      assert Protect(a)[1..] == Protect(a[1..]);
      assert forall q :: q in Protect(a) ==> q == Protect(a)[0] || q in Protect(a[1..]);
    }
  }

  function Quote(args: seq<string>): (r: seq<Item>)
    ensures |r| == |args|
  {
    seq(|args|, k requires 0 <= k < |args| => Item(if k == 0 then "" else " ", [Quoted(Protect(args[k]))]))
  }

  /** Every list of arguments can be written so that it is read back. */
  lemma AnyArguments(args: seq<string>)
    requires args != []
    ensures Written(Quote(args)) && Words(Quote(args)) == args
  {
    var items := Quote(args);
    forall k | 0 <= k < |args|
      ensures items[k].Valid() && ReadWord(items[k].word) == args[k] && (k > 0 ==> items[k].gap != []) {
      ProtectReads(args[k]);
      var w := items[k].word;
      assert w[1..] == [] && Read(w[0]) + [] == args[k];
    }
    assert forall k :: 0 <= k < |items| - 1 ==> items[1..][k] == items[k+1];
  }
}

/** The reader as it walks along the line, and the splitting of a command line into C strings. */
module SettingValue {
  import opened Chars
  import opened ValueGrammar

  /** From just after an opening quote to the closing one. */
  method ReadQuoted(line: string, from: nat, text: string) returns (r: Result<(nat, string)>)
    requires from <= |line|
    ensures match ScanQuoted(line[from..], text)
            case Err(e) => r == Err(e)
            case Ok(p) => r.Ok? && from <= r.value.0 < |line| && line[r.value.0 + 1..] == p.0 && r.value.1 == p.1
  {
    var i, t := from, text;
    while i != |line|
      invariant from <= i <= |line| && ScanQuoted(line[i..], t) == ScanQuoted(line[from..], text)
      decreases |line| - i
    {
      assert line[i..][0] == line[i] && line[i..][1..] == line[i+1..];
      if line[i] == '"' {
        break;
      } else if line[i] == '\\' {
        i := i + 1;
        if i == |line| {
          return Err(EndAfterBackslash);
        }
        assert line[i-1..][2..] == line[i+1..] && line[i-1..][1] == line[i];
        t := t + [line[i]];
      } else {
        t := t + [line[i]];
      }
      i := i + 1;
    }
    if i == |line| {
      return Err(Unterminated);
    }
    return Ok((i, t));
  }

  function Outcome(r: Result<Val>): Result<(string, seq<Span>)> {
    match r
    case Err(e) => Err(e)
    case Ok(v) => Ok((v.text, v.AllParts()))
  }

  datatype Move = More(i: nat, v: Val) | Last(v: Val) | Bad(error: Error)

  ghost predicate Moves(line: string, i: nat, v: Val, m: Move)
    requires i <= |line|
  {
    match m
    case More(j, v') => i < j <= |line| && Scan(line[i..], v) == Scan(line[j..], v')
    case Last(v') => Scan(line[i..], v) == Ok(v')
    case Bad(e) => Scan(line[i..], v) == Err(e)
  }

  /** White space ends a part; the line or a comment may follow, or another part. */
  method ReadSpace(line: string, i: nat, v: Val) returns (m: Move)
    requires i < |line| && IsSpace(line[i])
    ensures Moves(line, i, v, m)
  {
    assert line[..|line|] == line && line[i..][0] == line[i];
    SkipSpaceShift(line, i, 0);
    var j := SkipWs(line, i, |line|);
    assert line[i..][j-i..] == line[j..];
    if j == |line| || line[j] == '#' {
      m := Last(v.Ended());
    } else {
      assert j > i;
      m := More(j, v.Ended().Plus(" "));
    }
  }

  /** A protected or an ordinary character, or a quoted string. */
  method ReadChar(line: string, i: nat, v: Val) returns (m: Move)
    requires i < |line| && !IsSpace(line[i])
    ensures Moves(line, i, v, m)
  {
    ghost var s := line[i..];
    var c := line[i];
    assert s[0] == c && s[1..] == line[i+1..];
    if c == '"' {
      var q := ReadQuoted(line, i + 1, v.text);
      m := if q.Err? then Bad(q.error) else More(q.value.0 + 1, v.Begun().(text := q.value.1));
    } else if c == '\\' {
      if i + 1 == |line| {
        return Bad(EndAfterBackslash);
      }
      assert s[2..] == line[i+2..] && s[1] == line[i+1];
      m := More(i + 2, v.Begun().Plus([line[i+1]]));
    } else if c == '#' {
      m := Bad(HashNotSeparated);
    } else {
      m := More(i + 1, v.Begun().Plus([c]));
    }
  }

  /** `junk` is what an uninitialised start of a part holds. */
  method ReadSettingValue(line: string, from: nat, junk: int) returns (r: Result<(string, seq<Span>)>)
    requires from <= |line|
    ensures r == Outcome(Scan(line[SkipSpace(line, from)..], Start(junk)))
  {
    assert line[..|line|] == line;
    var i := SkipWs(line, from, |line|);
    var v := Start(junk);
    ghost var goal := Scan(line[i..], v);
    while i != |line|
      invariant i <= |line| && Scan(line[i..], v) == goal
      decreases |line| - i
    {
      var m;
      if IsSpace(line[i]) {
        m := ReadSpace(line, i, v);
      } else {
        m := ReadChar(line, i, v);
      }
      match m
      case More(j, v') =>
        i, v := j, v';
      case Last(v') =>
        return Ok((v'.text, v'.AllParts()));
      case Bad(e) =>
        return Err(e);
    }
    assert line[i..] == [];
    r := Ok((v.text, v.AllParts()));
  }

  // ---------------------------------------------------------------- separate arguments

  /** The text with every part ended by a NUL, unless it ends with the text. */
  function Terminated(s: string, parts: seq<Span>): (r: string)
    requires forall k :: 0 <= k < |parts| ==> 0 <= parts[k].1
    ensures |r| == |s|
  {
    if parts == [] then s
    else
      var t := Terminated(s, parts[..|parts|-1]);
      var e := parts[|parts|-1].1;
      if e < |t| then t[e := '\0'] else t
  }

  /** The C string at a position: up to the first NUL, or the end. */
  function CString(s: string, i: nat): string
    requires i <= |s|
  {
    s[i..Find(s, '\0', i)]
  }

  /** Ends every argument in place, and gives where each one starts. */
  method SeparateArgs(s: array<char>, parts: seq<Span>) returns (starts: seq<int>)
    requires forall k :: 0 <= k < |parts| ==> 0 <= parts[k].1
    modifies s
    ensures s[..] == Terminated(old(s[..]), parts)
    ensures |starts| == |parts| && forall k :: 0 <= k < |parts| ==> starts[k] == parts[k].0
  {
    for k := 0 to |parts|
      invariant s[..] == Terminated(old(s[..]), parts[..k])
    {
      assert parts[..k+1][..k] == parts[..k];
      if parts[k].1 < s.Length {
        s[parts[k].1] := '\0';
      }
    }
    assert parts[..|parts|] == parts;
    starts := [];
    for k := 0 to |parts|
      invariant s[..] == Terminated(old(s[..]), parts)
      invariant |starts| == k && forall j :: 0 <= j < k ==> starts[j] == parts[j].0
    {
      starts := starts + [parts[k].0];
    }
  }

  lemma {:induction false} TerminatedAt(s: string, parts: seq<Span>, n: nat, i: nat)
    requires n <= |parts| && (forall k :: 0 <= k < |parts| ==> 0 <= parts[k].1) && i < |s|
    ensures Terminated(s, parts[..n])[i] == (if exists k :: 0 <= k < n && parts[k].1 == i then '\0' else s[i])
  {
    if n > 0 {
      assert parts[..n][..n-1] == parts[..n-1];
      TerminatedAt(s, parts, n - 1, i);
    }
  }

  lemma PartsInOrder(args: seq<string>, text: string, parts: seq<Span>, j: nat, k: nat)
    requires Joined(args, text, parts) && j < k < |parts|
    ensures parts[j].1 < parts[k].0
    decreases k
  {
    assert PartOK(args, text, parts, k - 1);
    if j + 1 < k {
      PartsInOrder(args, text, parts, j, k - 1);
    }
  }

  lemma EndsKnown(args: seq<string>, text: string, parts: seq<Span>)
    requires Joined(args, text, parts)
    ensures forall j :: 0 <= j < |parts| ==> 0 <= parts[j].0 && 0 <= parts[j].1
  {
    forall j: nat | j < |parts| ensures 0 <= parts[j].0 && 0 <= parts[j].1 { assert PartOK(args, text, parts, j); }
  }

  /** No terminator falls inside a part. */
  lemma NotInside(args: seq<string>, text: string, parts: seq<Span>, k: nat, j: nat)
    requires Joined(args, text, parts) && j < |parts| && k < |parts|
    ensures !(parts[k].0 <= parts[j].1 < parts[k].1)
  {
    assert PartOK(args, text, parts, k) && PartOK(args, text, parts, j);
    if j < k {
      PartsInOrder(args, text, parts, j, k);
    } else if k < j {
      PartsInOrder(args, text, parts, k, j);
    }
  }

  lemma InsideKept(args: seq<string>, text: string, parts: seq<Span>, k: nat, i: nat)
    requires Joined(args, text, parts) && k < |parts| && parts[k].0 <= i < parts[k].1
    requires forall j :: 0 <= j < |parts| ==> 0 <= parts[j].1
    ensures i < |text| && Terminated(text, parts)[i] == text[i] && |args[k]| == parts[k].1 - parts[k].0
            && text[i] == args[k][i - parts[k].0]
  {
    assert PartOK(args, text, parts, k);
    assert parts[..|parts|] == parts;
    TerminatedAt(text, parts, |parts|, i);
    forall j: nat | j < |parts| ensures parts[j].1 != i { NotInside(args, text, parts, k, j); }
  }

  /** Cut at its parts, the text gives back every argument that has no NUL in it. */
  lemma Separated(args: seq<string>, text: string, parts: seq<Span>, k: nat)
    requires Joined(args, text, parts) && k < |args| && '\0' !in args[k]
    requires forall j :: 0 <= j < |parts| ==> 0 <= parts[j].0 && 0 <= parts[j].1
    ensures parts[k].0 <= |Terminated(text, parts)| && CString(Terminated(text, parts), parts[k].0) == args[k]
  {
    assert PartOK(args, text, parts, k);
    var t, a, b := Terminated(text, parts), parts[k].0, parts[k].1;
    forall i | a <= i < b ensures t[i] == text[i] && t[i] != '\0' {
      InsideKept(args, text, parts, k, i);
      assert args[k][i - a] in args[k];
    }
    if b < |text| {
      assert parts[..|parts|] == parts;
      TerminatedAt(text, parts, |parts|, b);
    }
    assert t[a..b] == text[a..b];
  }

  /** A command line written in any way, read and then cut up, gives the arguments again. */
  lemma RoundTrip(items: seq<Item>, junk: int, k: nat)
    requires Written(items) && k < |items| && '\0' !in ReadWord(items[k].word)
    ensures var line := WriteAll(items); var r := Outcome(Scan(line[SkipSpace(line, 0)..], Start(junk)));
            && r.Ok? && |r.value.1| == |items|
            && (forall j :: 0 <= j < |items| ==> 0 <= r.value.1[j].0 && 0 <= r.value.1[j].1)
            && var t := Terminated(r.value.0, r.value.1);
               r.value.1[k].0 <= |t| && CString(t, r.value.1[k].0) == ReadWord(items[k].word)
  {
    ReadsBack(items, junk);
    var line := WriteAll(items);
    var v := Scan(line[SkipSpace(line, 0)..], Start(junk)).value;
    EndsKnown(Words(items), v.text, v.AllParts());
    Separated(Words(items), v.text, v.AllParts(), k);
  }
}

/** A command line is read first and then has its variables substituted. */
module CommandLine {
  import opened Chars
  import opened ValueGrammar
  import VarSubst

  lemma PartPlaced(args: seq<string>, text: string, parts: seq<Span>, k: nat)
    requires Joined(args, text, parts) && k < |parts|
    ensures VarSubst.ArgOK(text, parts, k)
  {
    assert PartOK(args, text, parts, k);
    if k > 0 { assert PartOK(args, text, parts, k - 1); }
  }

  /** Parts that show arguments one after the other are what substitution asks for. */
  lemma PartsArePlaced(args: seq<string>, text: string, parts: seq<Span>)
    requires Joined(args, text, parts)
    ensures VarSubst.Placed(text, parts) && VarSubst.Spans(text, parts) && VarSubst.Args(text, parts) == args
  {
    forall k: nat | k < |parts| ensures VarSubst.ArgOK(text, parts, k) { PartPlaced(args, text, parts, k); }
    VarSubst.PlacedSpans(text, parts);
    forall k: nat | k < |parts| ensures VarSubst.Args(text, parts)[k] == args[k] {
      assert PartOK(args, text, parts, k);
    }
  }

  lemma AllButLast(text: string, parts: seq<Span>, m: nat)
    requires m <= |parts| && VarSubst.Placed(text, parts[..m])
    ensures VarSubst.PlacedTo(text, parts, m)
  {
    forall k: nat | k < m ensures VarSubst.ArgOK(text, parts, k) {
      assert VarSubst.ArgOK(text, parts[..m], k);
    }
  }

  /** For every line that is read and is not blank: what the reader gives is what substitution asks for if the line
      ends with a word. Otherwise the last part is listed twice, which does no harm if it is empty. */
  lemma ReadParts(line: string, junk: int)
    requires SkipSpace(line, 0) < |line| && Scan(line[SkipSpace(line, 0)..], Start(junk)).Ok?
    ensures var v := Scan(line[SkipSpace(line, 0)..], Start(junk)).value; var parts := v.AllParts(); var n := |parts|;
            if EndsWithWord(line) || (n > 1 && parts[n-1] == parts[n-2] && parts[n-1].0 == parts[n-1].1)
            then VarSubst.Placed(v.text, parts)
            else VarSubst.Repeated(v.text, parts)
  {
    ExactPositions(line, junk);
    var v := Scan(line[SkipSpace(line, 0)..], Start(junk)).value;
    var parts, n := v.AllParts(), |v.AllParts()|;
    if EndsWithWord(line) {
      var args :| Joined(args, v.text, parts);
      PartsArePlaced(args, v.text, parts);
    } else {
      var args :| Joined(args, v.text, parts[..n-1]);
      PartsArePlaced(args, v.text, parts[..n-1]);
      AllButLast(v.text, parts, n - 1);
      assert VarSubst.ArgOK(v.text, parts, n - 2);
    }
  }
}
