/**
  Variable substitution in a line that has been split into arguments: `$$`, `$name`, `${name}`, `${name-alt}`,
  `${name+alt}` (each with an optional colon), and `$/name`, which splits the value into words.
 */
module Substitution {
  import opened Chars

  datatype Option<T> = None | Some(value: T)

  type Env = map<string, string>

  datatype Alt = NoAlt | Minus | Plus

  datatype Ref = Ref(split: bool, name: string, alt: Alt, colon: bool, text: string)

  /** The character at a position, or NUL past the end. */
  function At(s: string, k: nat): char {
    if k < |s| then s[k] else '\0'
  }

  /** Parse the variable reference at the start of `a`, which is a `$`; also gives where it ends. */
  function ParseRef(a: string): (r: Option<(Ref, nat)>)
    requires a != [] && a[0] == '$'
    ensures r.Some? ==> 1 < r.value.1 <= |a|
  {
    var split := At(a, 1) == '/';
    var p := if split then 2 else 1;
    var brace := At(a, p) == '{';
    var q := if brace then p + 1 else p;
    var j := NameEnd(a, q, true);
    if j == q then None
    else if !brace then Some((Ref(split, a[q..j], NoAlt, false, []), j))
    else ParseAlt(a, split, a[q..j], j)
  }

  /** The rest of a reference in braces, from the end `j` of the name. */
  function ParseAlt(a: string, split: bool, name: string, j: nat): (r: Option<(Ref, nat)>)
    requires 1 < j <= |a|
    ensures r.Some? ==> j < r.value.1 <= |a|
  {
    var colon := At(a, j) == ':';
    var k := if colon then j + 1 else j;
    if At(a, k) == '+' || At(a, k) == '-' then
      var e := Find(a, '}', k + 1);
      if e == |a| then None
      else Some((Ref(split, name, if At(a, k) == '+' then Plus else Minus, colon, a[k+1..e]), e + 1))
    else if colon || At(a, k) != '}' then None
    else Some((Ref(split, name, NoAlt, false, []), k + 1))
  }

  /** What a reference stands for. With a colon, an empty value counts as no value. */
  function Value(r: Ref, env: Env): string {
    var set_ := r.name in env && !(r.colon && env[r.name] == []);
    match r.alt
    case NoAlt => if r.name in env then env[r.name] else []
    case Minus => if set_ then env[r.name] else r.text
    case Plus => if set_ then r.text else []
  }

  /** Arguments finished so far, the one being built, and whether that must be kept even if empty. */
  datatype Build = Build(done: seq<string>, cur: string, keep: bool)

  /** White space after a word ends the argument, unless there is nothing to end. */
  function Broken(b: Build, word: string): Build {
    Build(if word == [] && !b.keep then b.done else b.done + [word], [], false)
  }

  /** Add a value, from position `i` on, to what is being built, breaking at white space. */
  function Split(v: string, i: nat, b: Build): Build
    requires i <= |v|
    decreases |v| - i
  {
    var e := FindSpace(v, i);
    if e == |v| then b.(cur := b.cur + v[i..])
    else Split(v, SkipSpace(v, e), Broken(b, b.cur + v[i..e]))
  }

  /** What an argument has come to: what is being built at the end is dropped if it is empty and the last thing that
      happened was a split. */
  datatype Ended = Ended(done: seq<string>, cur: string, drop: bool)
  {
    predicate Vanishes() { drop && cur == [] }

    function Result(): seq<string> { if Vanishes() then done else done + [cur] }
  }

  /** Expand the rest `a` of an argument. */
  function Expand(a: string, env: Env, b: Build, drop: bool): Option<Ended>
    decreases |a|
  {
    if a == [] then Some(Ended(b.done, b.cur, drop))
    else if a[0] != '$' then Expand(a[1..], env, b.(cur := b.cur + [a[0]]), drop)
    else if At(a, 1) == '$' then Expand(a[2..], env, b.(cur := b.cur + ['$']), drop)
    else
      match ParseRef(a)
      case None => None
      case Some(p) =>
        var v := Value(p.0, env);
        if p.0.split then
          var b' := Split(v, 0, b);
          Expand(a[p.1..], env, b', !b'.keep)
        else Expand(a[p.1..], env, b.(cur := b.cur + v, keep := true), false)
  }

  function ExpandOf(a: string, env: Env): Option<Ended> {
    Expand(a, env, Build([], [], false), false)
  }

  function ExpandArg(a: string, env: Env): Option<seq<string>> {
    match ExpandOf(a, env)
    case None => None
    case Some(e) => Some(e.Result())
  }

  /** Expand every argument, in order. */
  function ExpandAll(args: seq<string>, env: Env): Option<seq<string>> {
    if args == [] then Some([])
    else
      var n := |args| - 1;
      match ExpandAll(args[..n], env)
      case None => None
      case Some(xs) =>
        match ExpandArg(args[n], env)
        case None => None
        case Some(ys) => Some(xs + ys)
  }

  /** How long the values are that take the place of references in an argument. */
  function Added(a: string, env: Env): nat
    decreases |a|
  {
    if a == [] then 0
    else if a[0] != '$' then Added(a[1..], env)
    else if At(a, 1) == '$' then Added(a[2..], env)
    else
      match ParseRef(a)
      case None => 0
      case Some(p) => |Value(p.0, env)| + Added(a[p.1..], env)
  }

  function AddedAll(args: seq<string>, env: Env): nat {
    if args == [] then 0 else AddedAll(args[..|args|-1], env) + Added(args[|args|-1], env)
  }

  lemma {:induction false} AddedPlain(lit: string, rest: string, env: Env)
    requires '$' !in lit
    ensures Added(lit + rest, env) == Added(rest, env)
  {
    if lit == [] {
      assert lit + rest == rest;
    } else {
      assert lit[0] in lit;
      assert (lit + rest)[1..] == lit[1..] + rest;
      AddedPlain(lit[1..], rest, env);
    }
  }

  // ---------------------------------------------------------------- what expansion means

  /** The words of a text from position `i` on: its maximal runs of characters other than white space. */
  function Words(v: string, i: nat): seq<string>
    requires i <= |v|
    decreases |v| - i
  {
    if i == |v| then []
    else if IsSpace(v[i]) then Words(v, i + 1)
    else
      var e := FindSpace(v, i);
      [v[i..e]] + Words(v, e)
  }

  lemma {:induction false} SkipWords(v: string, i: nat)
    requires i <= |v|
    ensures Words(v, i) == Words(v, SkipSpace(v, i))
    decreases |v| - i
  {
    if i < |v| && IsSpace(v[i]) {
      SkipWords(v, i + 1);
    }
  }

  function Finished(b: Build): seq<string> {
    if b.cur == [] then b.done else b.done + [b.cur]
  }

  /** Splitting a value that starts an argument leaves its words: all finished but, perhaps, the last. */
  lemma {:induction false} SplitWords(v: string, i: nat, done: seq<string>)
    requires i <= |v|
    ensures var b := Split(v, i, Build(done, [], false)); !b.keep && Finished(b) == done + Words(v, i)
    decreases |v| - i
  {
    var e := FindSpace(v, i);
    if e == |v| {
      LastOf(v, i, done);
    } else if e == i {
      NoneFirst(v, i, done);
      SplitWords(v, SkipSpace(v, e), done);
    } else {
      var n := SkipSpace(v, e);
      FirstOf(v, i, done);
      SplitWords(v, n, done + [v[i..e]]);
      PutBetween(done, v[i..e], Words(v, n));
    }
  }

  lemma PutBetween(a: seq<string>, x: string, b: seq<string>)
    ensures a + [x] + b == a + ([x] + b)
  {
  }

  /** The last word, if any. */
  lemma LastOf(v: string, i: nat, done: seq<string>)
    requires i <= |v| && FindSpace(v, i) == |v|
    ensures var b := Split(v, i, Build(done, [], false)); !b.keep && Finished(b) == done + Words(v, i)
  {
    var b := Split(v, i, Build(done, [], false));
    assert b == Build(done, [] + v[i..], false) && [] + v[i..] == v[i..];
    if i < |v| {
      assert Words(v, i) == [v[i..|v|]] + Words(v, |v|);
      assert v[i..|v|] == v[i..];
    }
  }

  lemma NoneFirst(v: string, i: nat, done: seq<string>)
    requires i < |v| && FindSpace(v, i) == i
    ensures Split(v, i, Build(done, [], false)) == Split(v, SkipSpace(v, i), Build(done, [], false))
    ensures Words(v, i) == Words(v, SkipSpace(v, i))
  {
    assert v[i..i] == [] && [] + v[i..i] == [];
    SkipWords(v, i);
  }

  lemma FirstOf(v: string, i: nat, done: seq<string>)
    requires i <= |v| && i < FindSpace(v, i) < |v|
    ensures var e := FindSpace(v, i); var n := SkipSpace(v, e);
            && Split(v, i, Build(done, [], false)) == Split(v, n, Build(done + [v[i..e]], [], false))
            && Words(v, i) == [v[i..e]] + Words(v, n)
  {
    var e := FindSpace(v, i);
    assert [] + v[i..e] == v[i..e];
    SkipWords(v, e);
  }

  /** An argument without `$` is left alone. */
  lemma Plain(a: string, env: Env)
    requires '$' !in a
    ensures ExpandArg(a, env) == Some([a])
  {
    PlainPrefix(a, [], env, Build([], [], false), false);
    assert a + [] == a && [] + a == a && [] + [a] == [a];
  }

  /** `$/x` alone becomes the words of the value, which may be none. */
  lemma SplitReference(a: string, env: Env)
    requires a != [] && a[0] == '$' && At(a, 1) != '$' && ParseRef(a).Some? && ParseRef(a).value.1 == |a|
             && ParseRef(a).value.0.split
    ensures ExpandArg(a, env) == Some(Words(Value(ParseRef(a).value.0, env), 0))
  {
    var v := Value(ParseRef(a).value.0, env);
    SplitWords(v, 0, []);
    assert a[|a|..] == [] && [] + Words(v, 0) == Words(v, 0);
    var b := Split(v, 0, Build([], [], false));
    assert Expand([], env, b, !b.keep) == Some(Ended(b.done, b.cur, !b.keep));
  }

  /** `$x` alone becomes one argument, even if the value is empty. */
  lemma PlainReference(a: string, env: Env)
    requires a != [] && a[0] == '$' && At(a, 1) != '$' && ParseRef(a).Some? && ParseRef(a).value.1 == |a|
             && !ParseRef(a).value.0.split
    ensures ExpandArg(a, env) == Some([Value(ParseRef(a).value.0, env)])
  {
    var v := Value(ParseRef(a).value.0, env);
    assert a[|a|..] == [] && [] + v == v && [] + [v] == [v];
    assert Expand([], env, Build([], v, true), false) == Some(Ended([], v, false));
  }

  function Total(words: seq<string>): nat {
    if words == [] then 0 else Total(words[..|words|-1]) + |words[|words|-1]|
  }

  function Size(b: Build): nat {
    Total(b.done) + |b.cur|
  }

  lemma TotalAdd(words: seq<string>, w: string)
    ensures Total(words + [w]) == Total(words) + |w|
  {
    assert (words + [w])[..|words|] == words;
  }

  lemma {:induction false} SplitSize(v: string, i: nat, b: Build)
    requires i <= |v|
    ensures Size(Split(v, i, b)) <= Size(b) + |v| - i
    decreases |v| - i
  {
    var e := FindSpace(v, i);
    if e < |v| {
      TotalAdd(b.done, b.cur + v[i..e]);
      SplitSize(v, SkipSpace(v, e), Broken(b, b.cur + v[i..e]));
    }
  }

  /** A variable that is not set stands for less than the reference to it. */
  lemma ShortValue(a: string)
    requires a != [] && a[0] == '$' && ParseRef(a).Some?
    ensures |Value(ParseRef(a).value.0, map[])| < ParseRef(a).value.1
  {
  }

  /** Without any variables, every `$` makes an argument shorter. */
  lemma {:induction false} Shrinks(a: string, b: Build, drop: bool)
    requires Expand(a, map[], b, drop).Some?
    ensures var e := Expand(a, map[], b, drop).value;
            Total(e.Result()) <= Size(b) + |a| && ('$' in a ==> Total(e.Result()) < Size(b) + |a|)
    decreases |a|
  {
    if a == [] {
      TotalAdd(b.done, b.cur);
    } else if a[0] != '$' {
      Shrinks(a[1..], b.(cur := b.cur + [a[0]]), drop);
    } else if At(a, 1) == '$' {
      Shrinks(a[2..], b.(cur := b.cur + ['$']), drop);
    } else {
      var (ref, n) := ParseRef(a).value;
      var v := Value(ref, map[]);
      ShortValue(a);
      if ref.split {
        SplitSize(v, 0, b);
        Shrinks(a[n..], Split(v, 0, b), !Split(v, 0, b).keep);
      } else {
        Shrinks(a[n..], b.(cur := b.cur + v, keep := true), false);
      }
    }
  }

  lemma {:induction false} PlainPrefix(lit: string, rest: string, env: Env, b: Build, drop: bool)
    requires '$' !in lit
    ensures Expand(lit + rest, env, b, drop) == Expand(rest, env, b.(cur := b.cur + lit), drop)
  {
    if lit == [] {
      assert lit + rest == rest && b.cur + lit == b.cur;
    } else {
      assert lit[0] in lit;
      assert (lit + rest)[1..] == lit[1..] + rest;
      PlainPrefix(lit[1..], rest, env, b.(cur := b.cur + [lit[0]]), drop);
      assert b.cur + [lit[0]] + lit[1..] == b.cur + lit;
    }
  }
}

/** The substitution as it edits the line and the offsets of the arguments. */
module VarSubst {
  import opened Chars
  import opened Substitution

  type Span = (int, int)

  datatype Error = IllFormed | TooLong

  datatype Result<T> = Ok(value: T) | Err(error: Error)

  /** The spans show these arguments in the text. */
  ghost predicate Shown(text: string, offs: seq<Span>, n: nat, outs: seq<string>) {
    && n == |outs| <= |offs|
    && forall k :: 0 <= k < n ==> 0 <= offs[k].0 <= offs[k].1 <= |text| && text[offs[k].0..offs[k].1] == outs[k]
  }

  lemma ShownMore(text: string, more: string, offs: seq<Span>, n: nat, outs: seq<string>)
    requires Shown(text, offs, n, outs)
    ensures Shown(text + more, offs, n, outs)
  {
    forall k | 0 <= k < n ensures (text + more)[offs[k].0..offs[k].1] == outs[k] {
      assert (text + more)[offs[k].0..offs[k].1] == text[offs[k].0..offs[k].1];
    }
  }

  /** End argument `i` where the line ends, and begin another after a space. */
  function BreakAt(offs: seq<Span>, i: nat, len: nat): (r: seq<Span>)
    requires i < |offs|
    ensures |r| == |offs| + 1 && r[i] == (offs[i].0, len) && r[i+1] == (len + 1, offs[i].1)
    ensures r[..i] == offs[..i] && r[i+2..] == offs[i+1..]
  {
    offs[..i] + [(offs[i].0, len), (len + 1, offs[i].1)] + offs[i+1..]
  }

  lemma BreakShown(line: string, offs: seq<Span>, i: nat, outs: seq<string>)
    requires i < |offs| && 0 <= offs[i].0 <= |line| && Shown(line, offs, i, outs)
    ensures Shown(line + " ", BreakAt(offs, i, |line|), i + 1, outs + [line[offs[i].0..]])
  {
    var r, t := BreakAt(offs, i, |line|), line + " ";
    forall k | 0 <= k < i + 1
      ensures 0 <= r[k].0 <= r[k].1 <= |t| && t[r[k].0..r[k].1] == (outs + [line[offs[i].0..]])[k]
    {
      if k < i {
        assert r[k] == r[..i][k] == offs[k];
        assert t[offs[k].0..offs[k].1] == line[offs[k].0..offs[k].1];
      } else {
        assert t[offs[i].0..|line|] == line[offs[i].0..];
      }
    }
  }

  /** Argument `i` was begun by a split: a space separates it from the one before. */
  ghost predicate Gap(line: string, offs: seq<Span>, i: nat) {
    0 < i < |offs| && 0 <= offs[i-1].1 == offs[i].0 - 1 < |line| && line[offs[i-1].1] == ' '
  }

  /** Where the new line stands while the words of a value are added. */
  datatype Words = Words(line: string, offs: seq<Span>, i: nat, keep: bool)

  ghost predicate Building(w: Words, offs0: seq<Span>, i0: nat, outs: seq<string>) {
    && w.i < |w.offs| && i0 < |offs0| && 0 <= w.offs[w.i].0 <= |w.line| && Shown(w.line, w.offs, w.i, outs)
    && w.offs[w.i].1 == offs0[i0].1 && w.offs[w.i+1..] == offs0[i0+1..]
  }

  ghost function Built(w: Words, done: seq<string>): Build
    requires w.i < |w.offs| && 0 <= w.offs[w.i].0 <= |w.line|
  {
    Build(done, w.line[w.offs[w.i].0..], w.keep)
  }

  lemma Extend(w: Words, offs0: seq<Span>, i0: nat, outs: seq<string>, more: string)
    requires Building(w, offs0, i0, outs)
    ensures var w' := w.(line := w.line + more);
            Building(w', offs0, i0, outs) && w'.line[w.offs[w.i].0..] == w.line[w.offs[w.i].0..] + more
  {
    ShownMore(w.line, more, w.offs, w.i, outs);
  }

  /** End the current argument and begin another. */
  method EndArgument(w: Words, ghost offs0: seq<Span>, ghost i0: nat, ghost outs: seq<string>) returns (w': Words)
    requires Building(w, offs0, i0, outs)
    ensures Building(w', offs0, i0, outs + [w.line[w.offs[w.i].0..]]) && w.line <= w'.line
    ensures w'.line[w'.offs[w'.i].0..] == [] && !w'.keep && |w'.line| == |w.line| + 1
    ensures Gap(w'.line, w'.offs, w'.i)
  {
    BreakShown(w.line, w.offs, w.i, outs);
    w' := Words(w.line + " ", BreakAt(w.offs, w.i, |w.line|), w.i + 1, false);
    assert w'.offs[w'.i+1..] == w.offs[w.i+1..];
  }

  /** Add a word to the current argument, which white space ends unless there is nothing to end. */
  method AddWord(word: string, w: Words, ghost offs0: seq<Span>, ghost i0: nat, ghost outs: seq<string>)
    returns (w': Words, ended: bool)
    requires Building(w, offs0, i0, outs)
    ensures w.line <= w'.line && !w'.keep && w'.i < |w'.offs| && 0 <= w'.offs[w'.i].0 <= |w'.line|
            && w'.line[w'.offs[w'.i].0..] == []
    ensures ended <==> !(w.line[w.offs[w.i].0..] + word == [] && !w.keep)
    ensures Building(w', offs0, i0, if ended then outs + [w.line[w.offs[w.i].0..] + word] else outs)
    ensures if ended then |w'.line| == |w.line| + |word| + 1 else w'.line == w.line
    ensures ended || Gap(w.line, w.offs, w.i) ==> Gap(w'.line, w'.offs, w'.i)
  {
    w' := w.(line := w.line + word);
    Extend(w, offs0, i0, outs, word);
    ended := !(w'.offs[w'.i].0 == |w'.line| && !w'.keep);
    if ended {
      w' := EndArgument(w', offs0, i0, outs);
    }
  }

  /** What is left of the value still leads to `goal`. */
  ghost predicate OnTrack(v: string, b: nat, w: Words, done: seq<string>, goal: Build) {
    b <= |v| && w.i < |w.offs| && 0 <= w.offs[w.i].0 <= |w.line| && Split(v, b, Built(w, done)) == goal
  }

  lemma WordDone(v: string, b: nat, w: Words, w': Words, done: seq<string>, done': seq<string>, goal: Build)
    requires OnTrack(v, b, w, done, goal) && FindSpace(v, b) < |v|
    requires w'.i < |w'.offs| && 0 <= w'.offs[w'.i].0 <= |w'.line|
    requires Built(w', done') == Broken(Built(w, done), w.line[w.offs[w.i].0..] + v[b..FindSpace(v, b)])
    ensures OnTrack(v, SkipSpace(v, FindSpace(v, b)), w', done', goal)
  {
  }

  lemma SplitLast(v: string, i: nat, x: Build)
    requires i <= |v| && FindSpace(v, i) == |v|
    ensures Split(v, i, x) == x.(cur := x.cur + v[i..])
  {
  }

  lemma TailOf(line: string, more: string, f: nat)
    requires f <= |line|
    ensures (line + more)[f..] == line[f..] + more
  {
  }

  lemma LastWord(v: string, b: nat, w: Words, w': Words, done: seq<string>, goal: Build)
    requires OnTrack(v, b, w, done, goal) && FindSpace(v, b) == |v| && w' == w.(line := w.line + v[b..])
    ensures Built(w', done) == goal
  {
    SplitLast(v, b, Built(w, done));
    TailOf(w.line, v[b..], w.offs[w.i].0);
  }

  /** A word of the value and the white space after it. */
  method NextWord(v: string, b: nat, wsp: nat, w: Words, ghost offs0: seq<Span>, ghost i0: nat, ghost outs: seq<string>,
                  ghost done: seq<string>, ghost goal: Build)
    returns (w': Words, ended: bool, ghost done': seq<string>)
    requires b <= wsp < |v| && wsp == FindSpace(v, b) && Building(w, offs0, i0, outs + done)
             && OnTrack(v, b, w, done, goal)
    ensures Building(w', offs0, i0, outs + done') && w.line <= w'.line && OnTrack(v, SkipSpace(v, wsp), w', done', goal)
    ensures |w'.line| == |w.line| + (if ended then wsp - b + 1 else 0)
    ensures done' != done || Gap(w.line, w.offs, w.i) ==> Gap(w'.line, w'.offs, w'.i)
  {
    ghost var word := w.line[w.offs[w.i].0..] + v[b..wsp];
    w', ended := AddWord(v[b..wsp], w, offs0, i0, outs + done);
    done' := if ended then done + [word] else done;
    assert ended ==> outs + done + [word] == outs + done';
    assert Built(w', done') == Broken(Built(w, done), word);
    WordDone(v, b, w, w', done, done', goal);
  }

  /** Add the value of a `$/` reference to the new line, ending the current argument and beginning
      another at white space. `offadj` is what to add to a position in the old line. */
  method AppendWords(v: string, w: Words, offadj: int, limit: nat, ghost outs: seq<string>)
    returns (ok: bool, w': Words, offadj': int, ghost done: seq<string>)
    requires w.i < |w.offs| && 0 <= w.offs[w.i].0 <= |w.line| && Shown(w.line, w.offs, w.i, outs)
    ensures |w'.line| <= |w.line| + |v| && (!ok ==> |w'.line| > limit)
    ensures ok ==> Building(w', w.offs, w.i, outs + done) && Split(v, 0, Built(w, [])) == Built(w', done)
    ensures ok ==> w.line <= w'.line && offadj' - offadj == |w'.line| - |w.line|
    ensures ok && (done != [] || Gap(w.line, w.offs, w.i)) ==> Gap(w'.line, w'.offs, w'.i)
  {
    ok, w', offadj', done := true, w, offadj, [];
    ghost var goal := Split(v, 0, Built(w, []));
    var lenBefore := |w.line|;
    var b := 0;
    assert v[..|v|] == v && v[0..] == v && outs + done == outs;
    var wsp := FindWs(v, b, |v|);
    while wsp != |v|
      invariant b <= wsp <= |v| && wsp == FindSpace(v, b)
      invariant Building(w', w.offs, w.i, outs + done) && w.line <= w'.line && OnTrack(v, b, w', done, goal)
      invariant lenBefore == |w'.line| <= |w.line| + b && offadj' - offadj == lenBefore - |w.line|
      invariant done != [] || Gap(w.line, w.offs, w.i) ==> Gap(w'.line, w'.offs, w'.i)
      decreases |v| - b
    {
      var ended;
      w', ended, done := NextWord(v, b, wsp, w', w.offs, w.i, outs, done, goal);
      if ended {
        if |w'.line| > limit {
          ok := false;
          return;
        }
        offadj' := offadj' + |w'.line| - lenBefore;
        lenBefore := |w'.line|;
      }
      b := SkipWs(v, wsp, |v|);
      wsp := FindWs(v, b, |v|);
    }
    w' := EndWords(v, b, w', w.offs, w.i, outs, done, goal);
    offadj' := offadj' + |w'.line| - lenBefore;
  }

  /** The rest of the value, without white space. */
  method EndWords(v: string, b: nat, w: Words, ghost offs0: seq<Span>, ghost i0: nat, ghost outs: seq<string>,
                  ghost done: seq<string>, ghost goal: Build)
    returns (w': Words)
    requires b <= |v| && FindSpace(v, b) == |v| && Building(w, offs0, i0, outs + done) && OnTrack(v, b, w, done, goal)
    ensures Building(w', offs0, i0, outs + done) && Built(w', done) == goal
    ensures w.line <= w'.line && |w'.line| == |w.line| + |v| - b
    ensures Gap(w.line, w.offs, w.i) ==> Gap(w'.line, w'.offs, w'.i)
  {
    Extend(w, offs0, i0, outs + done, v[b..]);
    w' := w.(line := w.line + v[b..]);
    LastWord(v, b, w, w', done, goal);
  }

  // ---------------------------------------------------------------- references

  /** The position just past an argument ends the line or holds a space. */
  ghost predicate Bounded(line: string, end: nat) {
    end <= |line| && (end < |line| ==> line[end] == ' ')
  }

  lemma Looks(line: string, from: nat, end: nat, k: nat, c: char)
    requires from < end && Bounded(line, end) && from + k <= end && c != ' ' && c != '\0'
    ensures At(line, from + k) == c <==> At(line[from..end], k) == c
  {
  }

  method FindBrace(line: string, from: nat, start: nat, end: nat) returns (j: nat)
    requires from <= start <= end <= |line|
    ensures start <= j <= end && j == from + Find(line[from..end], '}', start - from)
  {
    j := start;
    while j != end && line[j] != '}'
      invariant start <= j <= end && Find(line[from..end], '}', j - from) == Find(line[from..end], '}', start - from)
    {
      j := j + 1;
    }
  }

  lemma CutTwice(line: string, from: nat, end: nat)
    requires from <= end <= |line|
    ensures line[..end][from..] == line[from..end]
  {
  }

  /** Read the name of a variable in an argument. */
  method ReadName(line: string, from: nat, spos: nat, end: nat) returns (j: nat, name: string)
    requires from <= spos <= end <= |line|
    ensures spos <= j <= end && j == from + NameEnd(line[from..end], spos - from, true)
            && name == line[from..end][spos - from..j - from]
  {
    j, name := ReadConfigName(line, spos, end, true);
    NameShift(line[..end], from, spos - from, true);
    CutTwice(line, from, end);
    SubSlice(line, from, end, spos, j);
  }

  /** The text of an alternative, up to the closing brace. */
  method ReadText(line: string, from: nat, split: bool, name: string, alt: Alt, colon: bool, beg: nat, end: nat)
    returns (r: Option<(Ref, nat)>)
    requires from <= beg <= end <= |line|
    ensures var a := line[from..end]; var e := Find(a, '}', beg - from);
            r == if e == |a| then None else Some((Ref(split, name, alt, colon, a[beg - from..e]), from + e + 1))
  {
    var j := FindBrace(line, from, beg, end);
    if j == end {
      return None;
    }
    SubSlice(line, from, end, beg, j);
    r := Some((Ref(split, name, alt, colon, line[beg..j]), j + 1));
  }

  /** What follows the name inside braces. */
  method ReadAlternative(line: string, from: nat, split: bool, name: string, start: nat, end: nat)
    returns (r: Option<(Ref, nat)>)
    requires from + 1 < start <= end && Bounded(line, end)
    ensures r == Moved(ParseAlt(line[from..end], split, name, start - from), from)
  {
    ghost var a := line[from..end];
    var j := start;
    Looks(line, from, end, j - from, ':');
    var colon := At(line, j) == ':';
    if colon {
      j := j + 1;
    }
    Looks(line, from, end, j - from, '+');
    Looks(line, from, end, j - from, '-');
    Looks(line, from, end, j - from, '}');
    var c := At(line, j);
    if c == '+' || c == '-' {
      r := ReadText(line, from, split, name, if c == '+' then Plus else Minus, colon, j + 1, end);
      return;
    }
    if colon || c != '}' {
      return None;
    }
    return Some((Ref(split, name, NoAlt, false, []), j + 1));
  }

  lemma SubSlice(line: string, from: nat, end: nat, b: nat, e: nat)
    requires from <= b <= e <= end <= |line|
    ensures line[b..e] == line[from..end][b - from..e - from]
  {
    var x, y := line[b..e], line[from..end][b - from..e - from];
    forall k | 0 <= k < |x| ensures x[k] == y[k] { }
  }

  /** The same reference, counted from elsewhere. */
  function Moved(r: Option<(Ref, nat)>, n: nat): Option<(Ref, nat)> {
    if r.None? then None else Some((r.value.0, n + r.value.1))
  }

  /** Read the reference that starts with the `$` at `from`. */
  method ReadReference(line: string, from: nat, end: nat) returns (r: Option<(Ref, nat)>)
    requires from < end && Bounded(line, end) && line[from] == '$'
    ensures r == Moved(ParseRef(line[from..end]), from)
  {
    var spos := from + 1;
    Looks(line, from, end, 1, '/');
    var split := At(line, spos) == '/';
    if split {
      spos := spos + 1;
    }
    Looks(line, from, end, spos - from, '{');
    var brace := At(line, spos) == '{';
    if brace {
      spos := spos + 1;
    }
    var j, name := ReadName(line, from, spos, end);
    if name == [] {
      return None;
    }
    if brace {
      r := ReadAlternative(line, from, split, name, j, end);
    } else {
      r := Some((Ref(split, name, NoAlt, false, []), j));
    }
  }

  // ---------------------------------------------------------------- arguments

  /** The next `$`, or a position past every argument. */
  function NextDollar(line: string, from: nat): (d: nat)
    requires from <= |line|
    ensures from <= d <= |line| + 1 && d != |line| && (d < |line| ==> line[d] == '$')
    ensures forall k :: from <= k < d && k < |line| ==> line[k] != '$'
  {
    var d := Find(line, '$', from);
    if d == |line| then |line| + 1 else d
  }

  /** The new line so far, how much of the old line has been dealt with, the next `$` in it, what to add to
      a position after that, and the offsets, of which those before `i` are final. */
  datatype State = State(text: string, xpos: nat, dollar: nat, offadj: int, offs: seq<Span>, i: nat)

  ghost predicate Good(line: string, st: State) {
    st.xpos <= |line| && st.dollar == NextDollar(line, st.xpos) && |st.text| == st.xpos + st.offadj
  }

  /** The new line once the old one has been copied as far as `p`. */
  ghost function Upto(line: string, st: State, p: nat): string
    requires st.xpos <= p <= |line|
  {
    st.text + line[st.xpos..p]
  }

  /** Within an argument that ends at `end`, and has been dealt with as far as `p`. */
  ghost predicate Inside(line: string, st: State, p: nat, end: nat, outs: seq<string>) {
    && Good(line, st) && Bounded(line, end) && st.xpos <= p <= end && p <= st.dollar
    && st.i < |st.offs| && st.offs[st.i].1 == end && 0 <= st.offs[st.i].0 <= p + st.offadj
    && Shown(Upto(line, st, p), st.offs, st.i, outs)
  }

  /** If arguments were split off before this one, a space separates it from them. */
  ghost predicate AfterSplit(line: string, st: State, p: nat, done: seq<string>) {
    done != [] ==> st.xpos <= p <= |line| && Gap(Upto(line, st, p), st.offs, st.i)
  }

  /** The new argument as far as it goes. */
  ghost function Current(line: string, st: State, p: nat): string
    requires Good(line, st) && st.xpos <= p <= |line| && st.i < |st.offs| && 0 <= st.offs[st.i].0 <= p + st.offadj
  {
    Upto(line, st, p)[st.offs[st.i].0..]
  }

  /** One step of expansion: the `$` at the start of `a` and what belongs to it, up to `n`. */
  ghost predicate Step(a: string, env: Env, b: Build, drop: bool, n: nat, b': Build, drop': bool) {
    && a != [] && a[0] == '$' && 0 < n <= |a|
    && (At(a, 1) == '$' ==> n == 2 && b' == b.(cur := b.cur + ['$']) && drop' == drop)
    && (At(a, 1) != '$' ==>
          ParseRef(a).Some? && n == ParseRef(a).value.1 && Replaced(ParseRef(a).value.0, env, b, b', drop'))
  }

  /** A reference is replaced by its value. */
  ghost predicate Replaced(r: Ref, env: Env, b: Build, b': Build, drop': bool) {
    && (r.split ==> b' == Split(Value(r, env), 0, b) && drop' == !b'.keep)
    && (!r.split ==> b' == b.(cur := b.cur + Value(r, env), keep := true) && !drop')
  }

  lemma ExpandStep(a: string, env: Env, b: Build, drop: bool, n: nat, b': Build, drop': bool)
    requires Step(a, env, b, drop, n, b', drop')
    ensures Expand(a, env, b, drop) == Expand(a[n..], env, b', drop')
  {
  }

  lemma CutAt(line: string, p: nat, q: nat, end: nat)
    requires p <= q <= end <= |line|
    ensures line[p..end] == line[p..q] + line[q..end]
  {
  }

  /** Copy as far as `q`, where the next `$` is or the argument ends. */
  lemma Copied(line: string, st: State, p: nat, q: nat, end: nat, outs: seq<string>)
    requires Inside(line, st, p, end, outs) && p <= q <= end && q <= st.dollar
    ensures Inside(line, st, q, end, outs) && Current(line, st, q) == Current(line, st, p) + line[p..q]
            && '$' !in line[p..q]
    ensures forall done :: AfterSplit(line, st, p, done) ==> AfterSplit(line, st, q, done)
  {
    var lit, f := line[p..q], st.offs[st.i].0;
    assert Upto(line, st, q) == Upto(line, st, p) + lit;
    ShownMore(Upto(line, st, p), lit, st.offs, st.i, outs);
    assert Upto(line, st, q)[f..] == Upto(line, st, p)[f..] + lit;
  }

  /** Add text that takes the place of the old line up to `j`. */
  method AddText(line: string, st: State, end: nat, more: string, j: nat, offadj: int, ghost outs: seq<string>)
    returns (st': State)
    requires Inside(line, st, st.dollar, end, outs) && st.dollar < j <= end
             && offadj == st.offadj - (j - st.dollar) + |more|
    ensures Inside(line, st', j, end, outs) && st'.xpos == j && st'.offs == st.offs && st'.i == st.i
    ensures Current(line, st', j) == Current(line, st, st.dollar) + more && |st'.text| == st.dollar + st.offadj + |more|
    ensures forall done :: AfterSplit(line, st, st.dollar, done) ==> AfterSplit(line, st', j, done)
  {
    var d := st.dollar;
    var text := st.text + line[st.xpos..d];
    ShownMore(text, more, st.offs, st.i, outs);
    st' := State(text + more, j, NextDollar(line, j), offadj, st.offs, st.i);
    assert Upto(line, st', j) == text + more;
    assert (text + more)[st.offs[st.i].0..] == text[st.offs[st.i].0..] + more;
  }

  /** Copy up to the `$`, and add the words of a value in place of the reference, which ends at `j`. */
  method SplitText(line: string, st: State, end: nat, keep: bool, v: string, j: nat, limit: nat,
                   ghost outs: seq<string>)
    returns (ok: bool, st': State, keep': bool, ghost more: seq<string>)
    requires Inside(line, st, st.dollar, end, outs) && st.dollar < j <= end
    ensures |st'.text| <= st.dollar + st.offadj + |v| && (!ok ==> |st'.text| > limit)
    ensures ok ==> Inside(line, st', j, end, outs + more) && st'.xpos == j && st'.offs[st'.i+1..] == st.offs[st.i+1..]
    ensures ok ==>
              Split(v, 0, Build([], Current(line, st, st.dollar), keep)) == Build(more, Current(line, st', j), keep')
    ensures ok ==> forall done :: AfterSplit(line, st, st.dollar, done) ==> AfterSplit(line, st', j, done + more)
  {
    var d := st.dollar;
    var w := Words(st.text + line[st.xpos..d], st.offs, st.i, keep);
    var w', offadj;
    ok, w', offadj, more := AppendWords(v, w, st.offadj - (j - d), limit, outs);
    st' := State(w'.line, j, NextDollar(line, j), offadj, w'.offs, w'.i);
    keep' := w'.keep;
    if ok {
      assert Upto(line, st', j) == w'.line;
    }
  }

  /** What was finished before does not matter to splitting. */
  lemma {:induction false} SplitMore(v: string, i: nat, b: Build, done: seq<string>)
    requires i <= |v|
    ensures Split(v, i, b.(done := done + b.done)) == Split(v, i, b).(done := done + Split(v, i, b).done)
    decreases |v| - i
  {
    var e := FindSpace(v, i);
    if e < |v| {
      var word := b.cur + v[i..e];
      assert done + b.done + [word] == done + (b.done + [word]);
      SplitMore(v, SkipSpace(v, e), Broken(b, word), done);
    }
  }

  lemma SplitAfter(v: string, cur: string, keep: bool, done: seq<string>, more: seq<string>, cur': string, keep': bool)
    requires Split(v, 0, Build([], cur, keep)) == Build(more, cur', keep')
    ensures Split(v, 0, Build(done, cur, keep)) == Build(done + more, cur', keep')
  {
    assert done + [] == done;
    SplitMore(v, 0, Build([], cur, keep), done);
  }

  lemma Regroup(a: seq<string>, b: seq<string>, c: seq<string>)
    ensures a + b + c == a + (b + c)
  {
  }

  /** Put the words of a value in place of a reference, which ends at `j`. */
  method SubstWords(line: string, st: State, end: nat, keep: bool, v: string, j: nat, limit: nat,
                    ghost outs: seq<string>, ghost done: seq<string>)
    returns (ok: bool, st': State, keep': bool, ghost done': seq<string>)
    requires Inside(line, st, st.dollar, end, outs + done) && st.dollar < j <= end
             && AfterSplit(line, st, st.dollar, done)
    ensures |st'.text| <= st.dollar + st.offadj + |v| && (!ok ==> |st'.text| > limit)
    ensures ok ==> AfterSplit(line, st', j, done')
    ensures ok ==> Inside(line, st', j, end, outs + done') && st'.xpos == j && st'.offs[st'.i+1..] == st.offs[st.i+1..]
    ensures ok ==>
              Split(v, 0, Build(done, Current(line, st, st.dollar), keep)) == Build(done', Current(line, st', j), keep')
  {
    ghost var more;
    ok, st', keep', more := SplitText(line, st, end, keep, v, j, limit, outs + done);
    done' := done + more;
    if ok {
      Regroup(outs, done, more);
      SplitAfter(v, Current(line, st, st.dollar), keep, done, more, Current(line, st', j), keep');
    }
  }

  /** Put the value of a reference in its place; it ends at `j`. */
  method SubstRef(line: string, st: State, end: nat, keep: bool, env: Env, ref: Ref, j: nat, limit: nat,
                  ghost outs: seq<string>, ghost done: seq<string>)
    returns (ok: bool, st': State, keep': bool, drop': bool, ghost done': seq<string>)
    requires Inside(line, st, st.dollar, end, outs + done) && st.dollar < j <= end
             && AfterSplit(line, st, st.dollar, done)
    ensures ok ==> AfterSplit(line, st', j, done')
    ensures |st'.text| <= st.dollar + st.offadj + |Value(ref, env)| && (!ok ==> |st'.text| > limit)
    ensures ok ==> Inside(line, st', j, end, outs + done') && st'.xpos == j && st'.offs[st'.i+1..] == st.offs[st.i+1..]
    ensures ok ==>
              Replaced(ref, env, Build(done, Current(line, st, st.dollar), keep),
                       Build(done', Current(line, st', j), keep'), drop')
  {
    var v := Value(ref, env);
    if ref.split {
      ok, st', keep', done' := SubstWords(line, st, end, keep, v, j, limit, outs, done);
      drop' := !keep';
    } else {
      st' := AddText(line, st, end, v, j, st.offadj - (j - st.dollar) + |v|, outs + done);
      ok, keep', drop', done' := true, true, false, done;
    }
    ok := ok && |st'.text| <= limit;
  }

  /** The new line has grown by no more than the values that took the place of references. */
  ghost predicate Fits(line: string, st: State, end: nat, ok: bool, st': State, env: Env) {
    && st.dollar <= end <= |line| && |st'.text| <= end + st.offadj + Added(line[st.dollar..end], env)
    && (ok ==>
          st'.xpos <= end
          && st'.offadj + Added(line[st'.xpos..end], env) <= st.offadj + Added(line[st.dollar..end], env))
  }

  lemma AddedRef(line: string, d: nat, j: nat, end: nat, env: Env)
    requires d < j <= end <= |line| && line[d] == '$' && At(line[d..end], 1) != '$'
    requires ParseRef(line[d..end]).Some? && ParseRef(line[d..end]).value.1 == j - d
    ensures Added(line[d..end], env) == |Value(ParseRef(line[d..end]).value.0, env)| + Added(line[j..end], env)
  {
    assert line[d..end][j-d..] == line[j..end];
  }

  lemma AddedDollars(line: string, d: nat, end: nat, env: Env)
    requires d + 2 <= end <= |line| && line[d] == '$' && line[d+1] == '$'
    ensures Added(line[d..end], env) == Added(line[d+2..end], env)
  {
    assert line[d..end][2..] == line[d+2..end];
  }

  /** A `$` that begins a reference. */
  method SubstReference(line: string, st: State, end: nat, keep: bool, drop: bool, env: Env, limit: nat,
                        ghost outs: seq<string>, ghost done: seq<string>)
    returns (r: Result<(bool, bool)>, st': State, ghost done': seq<string>)
    requires Inside(line, st, st.dollar, end, outs + done) && st.dollar < end && At(line[st.dollar..end], 1) != '$'
             && AfterSplit(line, st, st.dollar, done)
    ensures r.Ok? ==>
              Inside(line, st', st'.xpos, end, outs + done') && st'.xpos > st.dollar
              && AfterSplit(line, st', st'.xpos, done')
              && st'.offs[st'.i+1..] == st.offs[st.i+1..]
    ensures r.Ok? ==> Step(line[st.dollar..end], env, Build(done, Current(line, st, st.dollar), keep), drop,
                           st'.xpos - st.dollar, Build(done', Current(line, st', st'.xpos), r.value.0), r.value.1)
    ensures r == Err(IllFormed) ==> ParseRef(line[st.dollar..end]).None?
    ensures Fits(line, st, end, r.Ok?, st', env) && (r == Err(TooLong) ==> |st'.text| > limit)
  {
    var ref := ReadReference(line, st.dollar, end);
    if ref.None? {
      return Err(IllFormed), st, done;
    }
    var ok, keep', drop';
    ok, st', keep', drop', done' := SubstRef(line, st, end, keep, env, ref.value.0, ref.value.1, limit, outs, done);
    RefFits(line, st, end, ok, st', env, ref.value.0, ref.value.1);
    r := if ok then Ok((keep', drop')) else Err(TooLong);
  }

  lemma RefFits(line: string, st: State, end: nat, ok: bool, st': State, env: Env, ref: Ref, j: nat)
    requires st.dollar < j <= end <= |line| && line[st.dollar] == '$' && At(line[st.dollar..end], 1) != '$'
    requires ParseRef(line[st.dollar..end]) == Some((ref, j - st.dollar))
    requires |st'.text| <= st.dollar + st.offadj + |Value(ref, env)|
    requires ok ==> st'.xpos == j && |st'.text| == j + st'.offadj
    ensures Fits(line, st, end, ok, st', env)
  {
    AddedRef(line, st.dollar, j, end, env);
  }

  /** Two of them stand for one. */
  method SubstDollars(line: string, st: State, end: nat, ghost keep: bool, ghost drop: bool, ghost env: Env,
                      ghost outs: seq<string>, ghost done: seq<string>)
    returns (st': State)
    requires Inside(line, st, st.dollar, end, outs + done) && st.dollar < end && At(line[st.dollar..end], 1) == '$'
             && AfterSplit(line, st, st.dollar, done)
    ensures Inside(line, st', st'.xpos, end, outs + done) && st'.xpos == st.dollar + 2 && st'.offs == st.offs
            && st'.i == st.i && AfterSplit(line, st', st'.xpos, done)
    ensures Step(line[st.dollar..end], env, Build(done, Current(line, st, st.dollar), keep), drop, 2,
                 Build(done, Current(line, st', st'.xpos), keep), drop)
    ensures Fits(line, st, end, true, st', env)
  {
    var d := st.dollar;
    st' := AddText(line, st, end, "$", d + 2, st.offadj - 1, outs + done);
    AddedDollars(line, d, end, env);
  }

  /** Deal with the next `$` of an argument. */
  method SubstNext(line: string, st: State, end: nat, keep: bool, drop: bool, env: Env, limit: nat,
                   ghost outs: seq<string>, ghost done: seq<string>)
    returns (r: Result<(bool, bool)>, st': State, ghost done': seq<string>)
    requires Inside(line, st, st.dollar, end, outs + done) && st.dollar < end && AfterSplit(line, st, st.dollar, done)
    ensures r.Ok? ==>
              Inside(line, st', st'.xpos, end, outs + done') && st'.xpos > st.dollar
              && AfterSplit(line, st', st'.xpos, done')
              && st'.offs[st'.i+1..] == st.offs[st.i+1..]
    ensures r.Ok? ==> Step(line[st.dollar..end], env, Build(done, Current(line, st, st.dollar), keep), drop,
                           st'.xpos - st.dollar, Build(done', Current(line, st', st'.xpos), r.value.0), r.value.1)
    ensures r == Err(IllFormed) ==> At(line[st.dollar..end], 1) != '$' && ParseRef(line[st.dollar..end]).None?
    ensures Fits(line, st, end, r.Ok?, st', env) && (r == Err(TooLong) ==> |st'.text| > limit)
  {
    var d := st.dollar;
    Looks(line, d, end, 1, '$');
    if At(line, d + 1) == '$' {
      st' := SubstDollars(line, st, end, keep, drop, env, outs, done);
      r, done' := Ok((keep, drop)), done;
    } else {
      r, st', done' := SubstReference(line, st, end, keep, drop, env, limit, outs, done);
    }
  }

  /** What has been dealt with, together with the rest of the argument from `p`, still expands to `goal`. */
  ghost predicate Leads(line: string, st: State, p: nat, end: nat, keep: bool, drop: bool, env: Env, done: seq<string>,
                        goal: Option<Ended>)
    requires Good(line, st) && st.xpos <= p <= end <= |line| && st.i < |st.offs|
             && 0 <= st.offs[st.i].0 <= p + st.offadj
  {
    Expand(line[p..end], env, Build(done, Current(line, st, p), keep), drop) == goal
  }

  lemma CopyLeads(line: string, st: State, p: nat, q: nat, end: nat, keep: bool, drop: bool, env: Env,
                  outs: seq<string>, done: seq<string>, goal: Option<Ended>)
    requires Inside(line, st, p, end, outs) && p <= q <= end && q <= st.dollar
             && Leads(line, st, p, end, keep, drop, env, done, goal)
    ensures Inside(line, st, q, end, outs) && Leads(line, st, q, end, keep, drop, env, done, goal)
    ensures AfterSplit(line, st, p, done) ==> AfterSplit(line, st, q, done)
  {
    Copied(line, st, p, q, end, outs);
    CutAt(line, p, q, end);
    PlainPrefix(line[p..q], line[q..end], env, Build(done, Current(line, st, p), keep), drop);
  }

  lemma CopyAdds(line: string, p: nat, q: nat, end: nat, env: Env)
    requires p <= q <= end <= |line| && NoDollar(line, p, q)
    ensures Added(line[p..end], env) == Added(line[q..end], env)
  {
    CutAt(line, p, q, end);
    assert '$' !in line[p..q];
    AddedPlain(line[p..q], line[q..end], env);
  }

  lemma StepLeads(line: string, d: nat, j: nat, end: nat, env: Env, b: Build, drop: bool, b': Build, drop': bool,
                  goal: Option<Ended>)
    requires d < j <= end <= |line| && Step(line[d..end], env, b, drop, j - d, b', drop')
             && Expand(line[d..end], env, b, drop) == goal
    ensures Expand(line[j..end], env, b', drop') == goal
  {
    ExpandStep(line[d..end], env, b, drop, j - d, b', drop');
    assert line[d..end][j-d..] == line[j..end];
  }

  lemma BadLeads(a: string, env: Env, b: Build, drop: bool)
    requires a != [] && a[0] == '$' && At(a, 1) != '$' && ParseRef(a).None?
    ensures Expand(a, env, b, drop) == None
  {
  }

  /** Copy up to the next `$` of an argument, and deal with that. */
  method SubstOne(line: string, st: State, ghost p: nat, end: nat, keep: bool, drop: bool, env: Env, limit: nat,
                  ghost outs: seq<string>, ghost done: seq<string>, ghost goal: Option<Ended>)
    returns (r: Result<(bool, bool)>, st': State, ghost done': seq<string>)
    requires Inside(line, st, p, end, outs + done) && Leads(line, st, p, end, keep, drop, env, done, goal)
             && st.dollar < end && AfterSplit(line, st, p, done)
    ensures r.Ok? ==> Inside(line, st', st'.xpos, end, outs + done') && st'.xpos > st.dollar
                      && AfterSplit(line, st', st'.xpos, done')
    ensures r.Ok? ==> Leads(line, st', st'.xpos, end, r.value.0, r.value.1, env, done', goal)
    ensures r.Ok? ==> st'.offs[st'.i+1..] == st.offs[st.i+1..]
    ensures r.Ok? ==> st'.offadj + Added(line[st'.xpos..end], env) <= st.offadj + Added(line[p..end], env)
    ensures r == Err(IllFormed) ==> goal == None
    ensures r == Err(TooLong) ==> end + st.offadj + Added(line[p..end], env) > limit
  {
    ghost var d := st.dollar;
    CopyAdds(line, p, d, end, env);
    CopyLeads(line, st, p, d, end, keep, drop, env, outs + done, done, goal);
    ghost var was := Build(done, Current(line, st, d), keep);
    r, st', done' := SubstNext(line, st, end, keep, drop, env, limit, outs, done);
    if r == Err(IllFormed) {
      BadLeads(line[d..end], env, was, drop);
    } else if r.Ok? {
      StepLeads(line, d, st'.xpos, end, env, was, drop,
                Build(done', Current(line, st', st'.xpos), r.value.0), r.value.1, goal);
    }
  }

  /** Deal with every reference in an argument. */
  method SubstAll(line: string, st: State, first: nat, end: nat, env: Env, limit: nat, ghost outs: seq<string>,
                  ghost goal: Option<Ended>)
    returns (r: Result<()>, st': State, ghost more: seq<string>)
    requires Inside(line, st, first, end, outs) && Leads(line, st, first, end, false, false, env, [], goal)
    ensures r.Ok? ==>
              Good(line, st') && st'.xpos <= end < st'.dollar
              && Shown(Upto(line, st', end), st'.offs, st'.i, outs + more)
    ensures r.Ok? ==> st'.offs[st'.i..] == st.offs[st.i+1..] && goal.Some? && goal.value.Result() == more
    ensures r.Ok? ==> Reaches(line, st', end, goal.value)
    ensures r == Err(IllFormed) ==> goal == None
    ensures r.Ok? ==> st'.offadj <= st.offadj + Added(line[first..end], env)
    ensures r == Err(TooLong) ==> end + st.offadj + Added(line[first..end], env) > limit
  {
    var keep, drop := false, false;
    st', more := st, [];
    ghost var p: nat := first;
    assert outs + more == outs;
    while end > st'.dollar
      invariant Inside(line, st', p, end, outs + more) && Leads(line, st', p, end, keep, drop, env, more, goal)
      invariant st'.offs[st'.i+1..] == st.offs[st.i+1..] && AfterSplit(line, st', p, more)
      invariant st'.offadj + Added(line[p..end], env) <= st.offadj + Added(line[first..end], env)
      decreases |line| + 1 - st'.dollar
    {
      var flags;
      flags, st', more := SubstOne(line, st', p, end, keep, drop, env, limit, outs, more, goal);
      if flags.Err? {
        return Err(flags.error), st', more;
      }
      p := st'.xpos;
      keep, drop := flags.value.0, flags.value.1;
    }
    st', more := LeaveArgument(line, st', p, end, keep, drop, env, outs, more, goal);
    r := Ok(());
  }

  /** Copy the rest of an argument, and end it. */
  method LeaveArgument(line: string, st: State, ghost p: nat, end: nat, keep: bool, drop: bool, env: Env,
                       ghost outs: seq<string>, ghost done: seq<string>, ghost goal: Option<Ended>)
    returns (st': State, ghost more: seq<string>)
    requires Inside(line, st, p, end, outs + done) && end <= st.dollar && AfterSplit(line, st, p, done)
             && Leads(line, st, p, end, keep, drop, env, done, goal)
    ensures Good(line, st') && st'.xpos <= end < st'.dollar && Shown(Upto(line, st', end), st'.offs, st'.i, outs + more)
    ensures st'.offs[st'.i..] == st.offs[st.i+1..] && goal.Some? && goal.value.Result() == more
    ensures st'.offadj == st.offadj && Reaches(line, st', end, goal.value)
  {
    CopyLeads(line, st, p, end, end, keep, drop, env, outs + done, done, goal);
    st', more := FinishArgument(line, st, end, keep, drop, env, outs, done, goal);
  }

  /** The last argument so far ends where the new line does. */
  ghost predicate EndsText(line: string, st: State, p: nat) {
    st.xpos <= p <= |line| && 0 < st.i <= |st.offs| && st.offs[st.i-1].1 == |Upto(line, st, p)|
  }

  /** The last argument so far ends before the space that the new line ends with. */
  ghost predicate EndsSpace(line: string, st: State, p: nat) {
    && st.xpos <= p <= |line| && 0 < st.i <= |st.offs|
    && var text := Upto(line, st, p); 0 <= st.offs[st.i-1].1 == |text| - 1 && text[|text|-1] == ' '
  }

  /** How far an argument that has come to `e` reaches. */
  ghost predicate Reaches(line: string, st: State, p: nat, e: Ended) {
    && (!e.Vanishes() ==> EndsText(line, st, p))
    && (e.Vanishes() && e.done != [] ==> EndsSpace(line, st, p))
  }

  lemma ExpandEnd(b: Build, env: Env, drop: bool)
    ensures Expand([], env, b, drop) == Some(Ended(b.done, b.cur, drop))
  {
  }

  method FinishArgument(line: string, st: State, end: nat, keep: bool, drop: bool, env: Env,
                        ghost outs: seq<string>, ghost done: seq<string>, ghost goal: Option<Ended>)
    returns (st': State, ghost more: seq<string>)
    requires Inside(line, st, end, end, outs + done) && end < st.dollar && AfterSplit(line, st, end, done)
             && Leads(line, st, end, end, keep, drop, env, done, goal)
    ensures Good(line, st') && st'.xpos <= end < st'.dollar && Shown(Upto(line, st', end), st'.offs, st'.i, outs + more)
    ensures st'.offs[st'.i..] == st.offs[st.i+1..] && goal.Some? && goal.value.Result() == more
    ensures st'.offadj == st.offadj && Reaches(line, st', end, goal.value)
  {
    var i, f := st.i, st.offs[st.i].0;
    var second := end + st.offadj;
    ghost var text := Upto(line, st, end);
    assert line[end..end] == [];
    ExpandEnd(Build(done, Current(line, st, end), keep), env, drop);
    assert text[f..second] == text[f..];
    if drop && f == second {
      st', more := st.(offs := st.offs[..i] + st.offs[i+1..]), done;
    } else {
      st', more := st.(offs := st.offs[i := (f, second)], i := i + 1), done + [text[f..]];
      assert outs + more == outs + done + [text[f..]];
    }
    assert Upto(line, st', end) == text;
  }

  lemma BeginArgument(line: string, st: State, st': State, first: nat, end: nat, env: Env, outs: seq<string>)
    requires Good(line, st) && st.i < |st.offs| && st.offs[st.i] == (first, end) && first <= end && Bounded(line, end)
    requires st.xpos <= first <= st.dollar && Shown(Upto(line, st, first), st.offs, st.i, outs)
    requires st' == st.(offs := st.offs[st.i := (first + st.offadj, end)])
    ensures Inside(line, st', first, end, outs)
            && Leads(line, st', first, end, false, false, env, [], ExpandOf(line[first..end], env))
    ensures st'.offs[st'.i+1..] == st.offs[st.i+1..]
  {
    assert Upto(line, st', first) == Upto(line, st, first);
    assert Current(line, st', first) == [];
  }

  /** Move the offsets of the argument, deal with its references, and drop it if it vanished. */
  method SubstArgument(line: string, st: State, env: Env, limit: nat, ghost outs: seq<string>)
    returns (r: Result<()>, st': State, ghost more: seq<string>)
    requires Good(line, st) && st.i < |st.offs| && 0 <= st.offs[st.i].0 <= st.offs[st.i].1
             && Bounded(line, st.offs[st.i].1)
    requires st.xpos <= st.offs[st.i].0 <= st.dollar && Shown(Upto(line, st, st.offs[st.i].0), st.offs, st.i, outs)
    ensures var (first, end) := st.offs[st.i];
            && (r.Ok? ==>
                  Good(line, st') && st'.xpos <= end < st'.dollar
                  && Shown(Upto(line, st', end), st'.offs, st'.i, outs + more))
            && (r.Ok? ==> st'.offs[st'.i..] == st.offs[st.i+1..] && ExpandArg(line[first..end], env) == Some(more))
            && (r.Ok? ==> Reaches(line, st', end, ExpandOf(line[first..end], env).value))
            && (r == Err(IllFormed) ==> ExpandArg(line[first..end], env) == None)
            && (r.Ok? ==> st'.offadj <= st.offadj + Added(line[first..end], env))
            && (r == Err(TooLong) ==> end + st.offadj + Added(line[first..end], env) > limit)
  {
    var first, end := st.offs[st.i].0, st.offs[st.i].1;
    st' := st.(offs := st.offs[st.i := (first + st.offadj, end)]);
    BeginArgument(line, st, st', first, end, env, outs);
    r, st', more := SubstAll(line, st', first, end, env, limit, outs, ExpandOf(line[first..end], env));
  }

  // ---------------------------------------------------------------- the whole line

  ghost predicate NoDollar(line: string, from: int, to: int) {
    forall p :: from <= p < to && 0 <= p < |line| ==> line[p] != '$'
  }

  /** Where the argument before number `n` ends. */
  ghost function EndBefore(offs: seq<Span>, n: nat): int
    requires n <= |offs|
  {
    if n == 0 then 0 else offs[n-1].1
  }

  ghost predicate ArgOK(line: string, offs: seq<Span>, k: nat)
    requires k < |offs|
  {
    0 <= EndBefore(offs, k) <= offs[k].0 <= offs[k].1 && Bounded(line, offs[k].1)
    && NoDollar(line, EndBefore(offs, k), offs[k].0)
  }

  /** The first `m` offsets locate separate arguments, in order, each followed by a space or the end of the line; there
      is no `$` outside of them. */
  ghost predicate PlacedTo(line: string, offs: seq<Span>, m: nat) {
    && m <= |offs| && (forall k: nat {:trigger ArgOK(line, offs, k)} :: k < m ==> ArgOK(line, offs, k))
    && NoDollar(line, EndBefore(offs, m), |line|)
  }

  ghost predicate Placed(line: string, offs: seq<Span>) {
    PlacedTo(line, offs, |offs|)
  }

  /** The last argument, which is not empty, is listed twice. */
  ghost predicate Repeated(line: string, offs: seq<Span>) {
    var n := |offs|;
    n > 1 && offs[n-1] == offs[n-2] && offs[n-1].0 < offs[n-1].1 && PlacedTo(line, offs, n - 1)
  }

  /** How many arguments there are. */
  ghost function Count(line: string, offs: seq<Span>): (m: nat)
    requires Placed(line, offs) || Repeated(line, offs)
    ensures m <= |offs| <= m + 1 && PlacedTo(line, offs, m)
    ensures m < |offs| ==> 0 < m && offs[m] == offs[m-1]
  {
    if Placed(line, offs) then |offs| else |offs| - 1
  }

  ghost predicate Spans(line: string, offs: seq<Span>) {
    forall k :: 0 <= k < |offs| ==> 0 <= offs[k].0 <= offs[k].1 <= |line|
  }

  lemma PlacedSpans(line: string, offs: seq<Span>)
    requires Placed(line, offs) || Repeated(line, offs)
    ensures Spans(line, offs)
  {
    var m := Count(line, offs);
    forall k: nat | k < |offs| ensures 0 <= offs[k].0 <= offs[k].1 <= |line| {
      assert k < m ==> ArgOK(line, offs, k);
      assert k == m ==> ArgOK(line, offs, m - 1);
    }
  }

  function Args(line: string, offs: seq<Span>): (r: seq<string>)
    requires Spans(line, offs)
    ensures |r| == |offs| && forall k :: 0 <= k < |offs| ==> r[k] == line[offs[k].0..offs[k].1]
  {
    seq(|offs|, k requires 0 <= k < |offs| => line[offs[k].0..offs[k].1])
  }

  ghost predicate SpecOK(line: string, orig: seq<Span>, env: Env, specs: seq<Option<seq<string>>>, k: nat) {
    k < |orig| == |specs| && 0 <= orig[k].0 <= orig[k].1 <= |line|
    && specs[k] == ExpandArg(line[orig[k].0..orig[k].1], env)
  }

  /** What each argument expands to. */
  ghost predicate IsSpec(line: string, orig: seq<Span>, env: Env, specs: seq<Option<seq<string>>>) {
    |specs| == |orig|
    && forall k: nat {:trigger SpecOK(line, orig, env, specs, k)} :: k < |orig| ==> SpecOK(line, orig, env, specs, k)
  }

  /** The first `n` of them together. */
  ghost function Together(specs: seq<Option<seq<string>>>, n: nat): Option<seq<string>>
    requires n <= |specs|
  {
    if n == 0 then Some([])
    else if Together(specs, n - 1).None? || specs[n-1].None? then None
    else Some(Together(specs, n - 1).value + specs[n-1].value)
  }

  lemma {:induction false} TogetherAll(line: string, orig: seq<Span>, env: Env, specs: seq<Option<seq<string>>>, n: nat)
    requires Spans(line, orig) && IsSpec(line, orig, env, specs) && n <= |orig|
    ensures Together(specs, n) == ExpandAll(Args(line, orig)[..n], env)
  {
    if n > 0 {
      TogetherAll(line, orig, env, specs, n - 1);
      assert SpecOK(line, orig, env, specs, n - 1);
      ExpandOne(Args(line, orig), n - 1, env);
    } else {
      assert Args(line, orig)[..0] == [];
    }
  }

  lemma {:induction false} IllFormedStays(specs: seq<Option<seq<string>>>, n: nat, m: nat)
    requires n <= m <= |specs| && Together(specs, n) == None
    ensures Together(specs, m) == None
    decreases m
  {
    if n < m {
      IllFormedStays(specs, n, m - 1);
    }
  }

  lemma ExpandOne(args: seq<string>, n: nat, env: Env)
    requires n < |args|
    ensures var a, b := ExpandAll(args[..n], env), ExpandArg(args[n], env);
            ExpandAll(args[..n+1], env) == if a.None? || b.None? then None else Some(a.value + b.value)
  {
    assert args[..n+1][..n] == args[..n];
  }

  /** Between arguments: those before number `n` are final, and the others are as they were. */
  ghost predicate Between(line: string, orig: seq<Span>, st: State, n: nat, q: nat, specs: seq<Option<seq<string>>>,
                          outs: seq<string>) {
    && n <= |orig| && q == EndBefore(orig, n) && Good(line, st)
    && st.i <= |st.offs| && st.offs[st.i..] == orig[n..]
    && st.xpos <= q <= |line| && q <= st.dollar && Shown(Upto(line, st, q), st.offs, st.i, outs)
    && n <= |specs| && Together(specs, n) == Some(outs)
  }

  lemma RestStep(offs: seq<Span>, i: nat, orig: seq<Span>, n: nat)
    requires i <= |offs| && n <= |orig| && offs[i..] == orig[n..]
    ensures i < |offs| <==> n < |orig|
    ensures n < |orig| ==> offs[i] == orig[n] && offs[i+1..] == orig[n+1..]
  {
    assert |offs[i..]| == |orig[n..]|;
    if n < |orig| {
      assert offs[i..][0] == orig[n..][0];
      assert offs[i..][1..] == orig[n..][1..];
    }
  }

  /** The next argument begins before any `$` that is left. */
  lemma AtArgument(line: string, orig: seq<Span>, st: State, n: nat, q: nat, specs: seq<Option<seq<string>>>,
                   outs: seq<string>)
    requires Between(line, orig, st, n, q, specs, outs) && n < |orig| && ArgOK(line, orig, n)
    ensures st.i < |st.offs| && st.offs[st.i] == orig[n] && st.offs[st.i+1..] == orig[n+1..]
    ensures st.xpos <= orig[n].0 <= st.dollar && Shown(Upto(line, st, orig[n].0), st.offs, st.i, outs)
  {
    var first := orig[n].0;
    RestStep(st.offs, st.i, orig, n);
    assert Upto(line, st, first) == Upto(line, st, q) + line[q..first];
    ShownMore(Upto(line, st, q), line[q..first], st.offs, st.i, outs);
  }

  /** Add a final span. */
  lemma ShownNext(text: string, arg: string, offs: seq<Span>, i: nat, outs: seq<string>)
    requires i < |offs| && Shown(text, offs, i, outs)
    ensures Shown(text + arg, offs[i := (|text|, |text| + |arg|)], i + 1, outs + [arg])
  {
    ShownMore(text, arg, offs, i, outs);
    assert (text + arg)[|text|..|text| + |arg|] == arg;
  }

  lemma MovedExpands(line: string, orig: seq<Span>, env: Env, specs: seq<Option<seq<string>>>, n: nat,
                     outs: seq<string>)
    requires IsSpec(line, orig, env, specs) && n < |orig| && Together(specs, n) == Some(outs)
    requires 0 <= orig[n].0 <= orig[n].1 <= |line| && NoDollar(line, orig[n].0, orig[n].1)
    ensures Together(specs, n + 1) == Some(outs + [line[orig[n].0..orig[n].1]])
  {
    var arg := line[orig[n].0..orig[n].1];
    assert '$' !in arg;
    Plain(arg, env);
    assert SpecOK(line, orig, env, specs, n);
  }

  /** Move an argument. */
  function Move(st: State): State
    requires st.i < |st.offs|
  {
    var (first, end) := st.offs[st.i];
    st.(offs := st.offs[st.i := (first + st.offadj, end + st.offadj)], i := st.i + 1)
  }

  /** An argument without `$` only moves. */
  lemma MoveArgument(line: string, orig: seq<Span>, st: State, n: nat, q: nat, env: Env,
                     specs: seq<Option<seq<string>>>, outs: seq<string>)
    returns (q': nat, outs': seq<string>)
    requires IsSpec(line, orig, env, specs) && Between(line, orig, st, n, q, specs, outs)
    requires n < |orig| && ArgOK(line, orig, n) && st.i < |st.offs| && st.offs[st.i].1 < st.dollar
    ensures Between(line, orig, Move(st), n + 1, q', specs, outs') && EndsText(line, Move(st), q')
  {
    RestStep(st.offs, st.i, orig, n);
    AtArgument(line, orig, st, n, q, specs, outs);
    var first, end := st.offs[st.i].0, st.offs[st.i].1;
    q' := end;
    var arg := line[first..end];
    outs' := outs + [arg];
    MovedExpands(line, orig, env, specs, n, outs);
    var text := Upto(line, st, first);
    ShownNext(text, arg, st.offs, st.i, outs);
    assert Upto(line, Move(st), end) == text + arg;
    assert Move(st).offs[Move(st).i..] == st.offs[st.i+1..];
  }

  /** Where things are when all arguments have been dealt with, and whether the last one reaches to the end. */
  ghost predicate AtEnd(line: string, orig: seq<Span>, st: State, m: nat, specs: seq<Option<seq<string>>>,
                        outs: seq<string>, env: Env) {
    && m <= |orig| && 0 <= EndBefore(orig, m) <= |line|
    && Between(line, orig, st, m, EndBefore(orig, m), specs, outs)
    && (m > 0 ==> 0 <= orig[m-1].0 <= orig[m-1].1 && LastEnds(line, st, orig[m-1].0, orig[m-1].1, env))
  }

  /** What the argument that was dealt with last expands to reaches to the end of the new line, unless it vanished. */
  ghost predicate LastEnds(line: string, st: State, first: nat, end: nat, env: Env) {
    && first <= end <= |line| && ExpandOf(line[first..end], env).Some?
    && Reaches(line, st, end, ExpandOf(line[first..end], env).value)
  }

  /** An argument that is listed once more has been moved. */
  ghost predicate MovedAgain(line: string, orig: seq<Span>, st: State, st': State, m: nat,
                             specs: seq<Option<seq<string>>>, outs: seq<string>, env: Env) {
    && m + 1 == |orig| && AtEnd(line, orig, st, m, specs, outs, env) && st.i + 1 == |st.offs|
    && st' == Move(st)
  }

  /** Where things are after some arguments: before the end, at the end, or past an argument that is listed once more.
      In the last case `was` is where they were before. */
  ghost predicate Along(line: string, orig: seq<Span>, st: State, was: State, m: nat, n: nat, q: nat,
                        specs: seq<Option<seq<string>>>, outs: seq<string>, env: Env) {
    && n <= |orig|
    && (n < m ==> Between(line, orig, st, n, q, specs, outs))
    && (n == m ==> q == EndBefore(orig, m) && AtEnd(line, orig, st, m, specs, outs, env))
    && (n == m + 1 ==> MovedAgain(line, orig, was, st, m, specs, outs, env))
    && n <= m + 1
  }

  lemma PlainEnding(a: string, env: Env)
    requires '$' !in a
    ensures ExpandOf(a, env).Some? && !ExpandOf(a, env).value.Vanishes()
  {
    PlainPrefix(a, [], env, Build([], [], false), false);
    assert a + [] == a;
  }

  /** One argument moves, or the last one once more. */
  lemma MoveNext(line: string, orig: seq<Span>, st: State, was: State, m: nat, n: nat, q: nat, env: Env,
                 specs: seq<Option<seq<string>>>, outs: seq<string>)
    returns (q': nat, outs': seq<string>)
    requires PlacedTo(line, orig, m) && |orig| <= m + 1 && IsSpec(line, orig, env, specs)
    requires Along(line, orig, st, was, m, n, q, specs, outs, env) && st.i < |st.offs| && st.offs[st.i].1 < st.dollar
    ensures n < |orig| && Along(line, orig, Move(st), st, m, n + 1, q', specs, outs', env)
  {
    if n < m {
      assert ArgOK(line, orig, n);
      RestStep(st.offs, st.i, orig, n);
      q', outs' := MoveArgument(line, orig, st, n, q, env, specs, outs);
      NoneIn(line, st, orig[n].0, orig[n].1, q);
      PlainEnding(line[orig[n].0..orig[n].1], env);
    } else if n == m {
      RestStep(st.offs, st.i, orig, n);
      q', outs' := q, outs;
      assert |st.offs[st.i..]| == |orig[m..]|;
    }
  }

  lemma NoneIn(line: string, st: State, first: int, end: int, q: nat)
    requires Good(line, st) && st.xpos <= q <= first <= end < st.dollar && end <= |line|
    ensures '$' !in line[first..end]
  {
  }

  /** Arguments up to the next `$` only move. */
  method MoveArguments(line: string, ghost orig: seq<Span>, st: State, ghost m: nat, ghost n: nat, ghost q: nat,
                       ghost env: Env, ghost specs: seq<Option<seq<string>>>, ghost outs: seq<string>)
    returns (st': State, ghost was: State, ghost n': nat, ghost q': nat, ghost outs': seq<string>)
    requires PlacedTo(line, orig, m) && |orig| <= m + 1 && IsSpec(line, orig, env, specs) && n <= m
    requires m < |orig| ==> 0 < m && orig[m] == orig[m-1]
    requires Along(line, orig, st, st, m, n, q, specs, outs, env)
    ensures n' >= n && Along(line, orig, st', was, m, n', q', specs, outs', env) && st'.offadj == st.offadj
    ensures n' == m ==> m == |orig|
  {
    st', was, n', q', outs' := st, st, n, q, outs;
    while st'.i < |st'.offs| && st'.offs[st'.i].1 < st'.dollar
      invariant n' >= n && Along(line, orig, st', was, m, n', q', specs, outs', env) && st'.offadj == st.offadj
      decreases |orig| - n'
    {
      q', outs' := MoveNext(line, orig, st', was, m, n', q', env, specs, outs');
      st', was, n' := Move(st'), st', n' + 1;
    }
    if n' == m && m < |orig| {
      RestStep(st'.offs, st'.i, orig, m);
      PastDollars(line, orig, st', m, specs, outs', env);
    }
  }

  /** After the last argument there is no `$`. */
  lemma PastDollars(line: string, orig: seq<Span>, st: State, m: nat, specs: seq<Option<seq<string>>>,
                    outs: seq<string>, env: Env)
    requires AtEnd(line, orig, st, m, specs, outs, env) && m > 0 && NoDollar(line, EndBefore(orig, m), |line|)
    ensures orig[m-1].1 < st.dollar
  {
  }

  /** One argument that may hold references. */
  method NextArgument(line: string, ghost orig: seq<Span>, st: State, ghost m: nat, ghost n: nat, ghost q: nat,
                      env: Env, limit: nat, ghost specs: seq<Option<seq<string>>>, ghost outs: seq<string>)
    returns (r: Result<()>, st': State, ghost q': nat, ghost outs': seq<string>)
    requires PlacedTo(line, orig, m) && n < m && Spans(line, orig) && IsSpec(line, orig, env, specs)
    requires Between(line, orig, st, n, q, specs, outs) && st.i < |st.offs|
    ensures r.Ok? ==> Along(line, orig, st', st', m, n + 1, q', specs, outs', env)
    ensures r == Err(IllFormed) ==> Together(specs, m) == None
    ensures r.Ok? ==> st'.offadj <= st.offadj + Added(Args(line, orig)[n], env)
    ensures r == Err(TooLong) ==> |line| + st.offadj + Added(Args(line, orig)[n], env) > limit
  {
    RestStep(st.offs, st.i, orig, n);
    assert ArgOK(line, orig, n);
    AtArgument(line, orig, st, n, q, specs, outs);
    ghost var more;
    r, st', more := SubstArgument(line, st, env, limit, outs);
    q', outs' := orig[n].1, outs + more;
    assert SpecOK(line, orig, env, specs, n);
    if r == Err(IllFormed) {
      IllFormedStays(specs, n + 1, m);
    }
  }

  lemma AllDone(line: string, orig: seq<Span>, st: State, n: nat, q: nat, specs: seq<Option<seq<string>>>,
                outs: seq<string>)
    requires Between(line, orig, st, n, q, specs, outs)
    ensures var text := st.text + line[st.xpos..]; Shown(text, st.offs, st.i, outs)
  {
    var text := st.text + line[st.xpos..];
    assert text == Upto(line, st, q) + line[q..];
    ShownMore(Upto(line, st, q), line[q..], st.offs, st.i, outs);
  }

  /** All there is has been dealt with. */
  lemma NothingLeft(line: string, orig: seq<Span>, st: State, was: State, m: nat, n: nat, q: nat,
                    specs: seq<Option<seq<string>>>, outs: seq<string>, env: Env)
    requires Along(line, orig, st, was, m, n, q, specs, outs, env) && n >= m && (n == m ==> m == |orig|)
    ensures st.i == |st.offs|
  {
    if n == m {
      RestStep(st.offs, st.i, orig, m);
    }
  }

  /** The spans show these arguments. */
  ghost predicate Shows(text: string, offs: seq<Span>, outs: seq<string>) {
    Spans(text, offs) && Args(text, offs) == outs
  }

  lemma AllShown(text: string, offs: seq<Span>, outs: seq<string>)
    requires Shown(text, offs, |offs|, outs)
    ensures Shows(text, offs, outs)
  {
    assert Args(text, offs) == outs;
  }

  lemma HasSpec(line: string, orig: seq<Span>, env: Env) returns (specs: seq<Option<seq<string>>>)
    requires Spans(line, orig)
    ensures IsSpec(line, orig, env, specs)
  {
    specs := seq(|orig|, k requires 0 <= k < |orig| => ExpandArg(line[orig[k].0..orig[k].1], env));
    forall k: nat | k < |orig| ensures SpecOK(line, orig, env, specs, k) { }
  }

  lemma {:induction false} AddedUpTo(args: seq<string>, n: nat, m: nat, env: Env)
    requires n <= m <= |args|
    ensures AddedAll(args[..n], env) <= AddedAll(args[..m], env)
    ensures n < |args| ==> AddedAll(args[..n+1], env) == AddedAll(args[..n], env) + Added(args[n], env)
  {
    if n < |args| {
      assert args[..n+1][..n] == args[..n];
    }
    if n < m {
      AddedUpTo(args, n, m - 1, env);
      assert args[..m][..m-1] == args[..m-1];
    }
  }

  /** One argument, and those after it that only move. */
  method NextArguments(line: string, ghost orig: seq<Span>, st: State, ghost was: State, ghost m: nat, ghost n: nat,
                       ghost q: nat, env: Env, limit: nat, ghost specs: seq<Option<seq<string>>>,
                       ghost outs: seq<string>)
    returns (r: Result<()>, st': State, ghost was': State, ghost n': nat, ghost q': nat, ghost outs': seq<string>)
    requires PlacedTo(line, orig, m) && |orig| <= m + 1 && Spans(line, orig) && IsSpec(line, orig, env, specs)
    requires m < |orig| ==> 0 < m && orig[m] == orig[m-1]
    requires n < m && Between(line, orig, st, n, q, specs, outs) && st.i < |st.offs|
    requires st.offadj <= AddedAll(Args(line, orig)[..n], env)
    ensures r.Ok? ==> n < n' && Along(line, orig, st', was', m, n', q', specs, outs', env) && (n' == m ==> m == |orig|)
    ensures r.Ok? && n' <= m ==> st'.offadj <= AddedAll(Args(line, orig)[..n'], env)
    ensures r == Err(IllFormed) ==> Together(specs, m) == None
    ensures r == Err(TooLong) ==> |line| + AddedAll(Args(line, orig)[..m], env) > limit
  {
    ghost var args := Args(line, orig);
    r, st', q', outs' := NextArgument(line, orig, st, m, n, q, env, limit, specs, outs);
    was', n' := was, n;
    AddedUpTo(args, n, n, env);
    AddedUpTo(args, n + 1, m, env);
    if r.Ok? {
      st', was', n', q', outs' := MoveArguments(line, orig, st', m, n + 1, q', env, specs, outs');
      if n' <= m {
        AddedUpTo(args, n + 1, n', env);
      }
    }
  }

  lemma StillLeft(line: string, orig: seq<Span>, st: State, was: State, m: nat, n: nat, q: nat,
                  specs: seq<Option<seq<string>>>, outs: seq<string>, env: Env)
    requires Along(line, orig, st, was, m, n, q, specs, outs, env) && (n == m ==> m == |orig|) && st.i < |st.offs|
    ensures n < m
  {
    if n >= m {
      NothingLeft(line, orig, st, was, m, n, q, specs, outs, env);
    }
  }

  lemma AllDealtWith(line: string, orig: seq<Span>, st: State, was: State, m: nat, n: nat, q: nat,
                     specs: seq<Option<seq<string>>>, outs: seq<string>, env: Env)
    requires Along(line, orig, st, was, m, n, q, specs, outs, env) && m <= |orig| && st.i >= |st.offs|
    ensures Together(specs, m) == Some(outs)
    ensures var text := st.text + line[st.xpos..];
            && (m == |orig| ==> Shows(text, st.offs, outs))
            && (m < |orig| ==> ListedAgain(line, orig, was, m, specs, outs, env, text, st.offs))
  {
    if n < m {
      RestStep(st.offs, st.i, orig, n);
    } else if n == m {
      RestStep(st.offs, st.i, orig, n);
      AllDone(line, orig, st, n, q, specs, outs);
      AllShown(st.text + line[st.xpos..], st.offs, outs);
    }
  }

  /** Deal with all arguments, one after the other. `was` is where things are before one that is listed once more. */
  method SubstArguments(line: string, offsets: seq<Span>, env: Env, limit: nat, ghost m: nat,
                        ghost specs: seq<Option<seq<string>>>)
    returns (r: Result<(string, seq<Span>)>, ghost was: State, ghost outs: seq<string>)
    requires PlacedTo(line, offsets, m) && |offsets| <= m + 1 && Spans(line, offsets)
    requires IsSpec(line, offsets, env, specs) && (m < |offsets| ==> 0 < m && offsets[m] == offsets[m-1])
    ensures r.Ok? ==> Together(specs, m) == Some(outs)
    ensures r.Ok? && m == |offsets| ==> Shows(r.value.0, r.value.1, outs)
    ensures r.Ok? && m < |offsets| ==> ListedAgain(line, offsets, was, m, specs, outs, env, r.value.0, r.value.1)
    ensures r == Err(IllFormed) ==> Together(specs, m) == None
    ensures r == Err(TooLong) ==> |line| + AddedAll(Args(line, offsets)[..m], env) > limit
  {
    var st := State([], 0, NextDollar(line, 0), 0, offsets, 0);
    ghost var n: nat, q: nat := 0, 0;
    outs, was := [], st;
    while st.i < |st.offs|
      invariant Along(line, offsets, st, was, m, n, q, specs, outs, env) && (n == m ==> m == |offsets|)
      invariant n <= m ==> st.offadj <= AddedAll(Args(line, offsets)[..n], env)
      decreases m + 1 - n
    {
      StillLeft(line, offsets, st, was, m, n, q, specs, outs, env);
      var ok;
      ok, st, was, n, q, outs := NextArguments(line, offsets, st, was, m, n, q, env, limit, specs, outs);
      if ok.Err? {
        return Err(ok.error), was, outs;
      }
    }
    r := Ok((st.text + line[st.xpos..], st.offs));
    AllDealtWith(line, offsets, st, was, m, n, q, specs, outs, env);
  }

  /** A line whose last argument is listed twice has been dealt with; `was` is where things were before the second. */
  ghost predicate ListedAgain(line: string, orig: seq<Span>, was: State, m: nat, specs: seq<Option<seq<string>>>,
                              outs: seq<string>, env: Env, text: string, offs: seq<Span>) {
    && m + 1 == |orig| && AtEnd(line, orig, was, m, specs, outs, env) && was.i + 1 == |was.offs|
    && text == was.text + line[was.xpos..]
    && offs == Move(was).offs
  }

  /** The new line and offsets are what the old ones should come to. */
  ghost predicate Right(line: string, offsets: seq<Span>, env: Env, text: string, offs: seq<Span>) {
    && Spans(line, offsets) && Spans(text, offs)
    && ExpandAll(Args(line, offsets), env) == Some(Args(text, offs))
  }

  /** An argument comes to one that is as long as it was, and no space is left behind after it (unless it is all
      spaces). */
  predicate LengthKept(a: string, env: Env) {
    var e := ExpandOf(a, env);
    && e.Some? && |e.value.Result()| == 1 && |e.value.Result()[0]| == |a|
    && (e.value.Vanishes() ==> forall k :: 0 <= k < |a| ==> e.value.Result()[0][k] == ' ')
  }

  /** All but the last span are final; the last one is as long as the argument was, and ends where the new line
      does. */
  lemma AgainShown(line: string, orig: seq<Span>, was: State, m: nat, specs: seq<Option<seq<string>>>,
                   outs: seq<string>, env: Env, text: string, offs: seq<Span>)
    requires ListedAgain(line, orig, was, m, specs, outs, env, text, offs) && 0 < m && orig[m] == orig[m-1]
    ensures var end := orig[m].1; var last := |offs| - 1;
            && 0 <= orig[m].0 <= end <= |line| && was.xpos <= end && last == |outs|
            && Shown(text, offs, last, outs) && Upto(line, was, end) <= text
            && offs[last] == (|Upto(line, was, end)| - (end - orig[m].0), |Upto(line, was, end)|)
            && offs[..last] == was.offs[..was.i]
  {
    var end := orig[m].1;
    RestStep(was.offs, was.i, orig, m);
    AllDone(line, orig, was, m, end, specs, outs);
    assert text == Upto(line, was, end) + line[end..];
  }

  /** An argument that is shifted by one place, with a space after it, is all spaces. */
  lemma {:induction false} AllSpaces(b: string, k: nat)
    requires k < |b| && b == b[1..] + " "
    ensures b[k] == ' '
    decreases |b| - k
  {
    if k + 1 < |b| {
      AllSpaces(b, k + 1);
      assert (b[1..] + " ")[k] == b[k+1];
    } else {
      assert (b[1..] + " ")[k] == ' ';
    }
  }

  lemma ShiftedSpaces(b: string)
    requires b != []
    ensures b == b[1..] + " " <==> forall k :: 0 <= k < |b| ==> b[k] == ' '
  {
    if b == b[1..] + " " {
      forall k | 0 <= k < |b| ensures b[k] == ' ' { AllSpaces(b, k); }
    }
  }

  /** The words that an argument came to were shown last. */
  lemma LastOuts(line: string, orig: seq<Span>, env: Env, specs: seq<Option<seq<string>>>, m: nat, outs: seq<string>)
    requires IsSpec(line, orig, env, specs) && 0 < m <= |orig| && Together(specs, m) == Some(outs)
    requires 0 <= orig[m-1].0 <= orig[m-1].1 <= |line|
    ensures var a := line[orig[m-1].0..orig[m-1].1];
            && ExpandOf(a, env).Some? && var more := ExpandOf(a, env).value.Result();
               |more| <= |outs| && outs[|outs|-|more|..] == more
  {
    assert SpecOK(line, orig, env, specs, m - 1);
  }

  /** A span of the length of `a` at the end of the text, when the argument before it has come to `e`. */
  lemma SpanAtEnd(line: string, st: State, p: nat, e: Ended, len: nat, text: string, b: string)
    requires Reaches(line, st, p, e) && e.Result() == [b] && st.xpos <= p <= |line| && Upto(line, st, p) <= text
    requires 0 < st.i <= |st.offs| && 0 <= st.offs[st.i-1].0 <= st.offs[st.i-1].1 <= |text|
    requires text[st.offs[st.i-1].0..st.offs[st.i-1].1] == b
    ensures var n := |Upto(line, st, p)|;
            (len <= n && text[n-len..n] == b)
            <==> |b| == len && (e.Vanishes() ==> forall k :: 0 <= k < |b| ==> b[k] == ' ')
  {
    var n := |Upto(line, st, p)|;
    var (f, g) := st.offs[st.i-1];
    if e.Vanishes() {
      assert text[n-1] == ' ';
      if |b| == len {
        if b != [] {
          ShiftedSpaces(b);
          OneFurther(text, f, n);
        } else {
          assert text[n..n] == b;
        }
      }
    }
  }

  lemma OneFurther(text: string, f: nat, n: nat)
    requires f + 1 < n <= |text| && text[n-1] == ' '
    ensures text[f+1..n] == text[f..n-1][1..] + " "
  {
    assert text[f+1..n] == text[f+1..n-1] + [text[n-1]];
    assert text[f..n-1][1..] == text[f+1..n-1];
  }

  lemma LastSpan(line: string, orig: seq<Span>, was: State, m: nat, specs: seq<Option<seq<string>>>,
                 outs: seq<string>, env: Env, text: string, offs: seq<Span>)
    requires ListedAgain(line, orig, was, m, specs, outs, env, text, offs) && 0 < m && orig[m] == orig[m-1]
    requires IsSpec(line, orig, env, specs) && Together(specs, m) == Some(outs)
    ensures 0 <= orig[m].0 <= orig[m].1 <= |line|
    ensures var a, s := line[orig[m].0..orig[m].1], offs[|offs|-1];
            && ExpandOf(a, env).Some?
            && (0 <= s.0 <= s.1 <= |text| && [text[s.0..s.1]] == ExpandOf(a, env).value.Result() <==>
                  LengthKept(a, env))
  {
    AgainShown(line, orig, was, m, specs, outs, env, text, offs);
    LastOuts(line, orig, env, specs, m, outs);
    var a := line[orig[m].0..orig[m].1];
    if |ExpandOf(a, env).value.Result()| == 1 {
      OneAtEnd(line, was, orig[m].1, ExpandOf(a, env).value, |a|, text, offs, outs);
    }
  }

  lemma OneAtEnd(line: string, was: State, p: nat, e: Ended, len: nat, text: string, offs: seq<Span>, outs: seq<string>)
    requires |e.Result()| == 1 && Reaches(line, was, p, e) && was.xpos <= p <= |line| && Upto(line, was, p) <= text
    requires |offs| > 0 && |offs| - 1 == |outs| == was.i <= |was.offs| && offs[..was.i] == was.offs[..was.i]
    requires Shown(text, offs, |offs| - 1, outs) && |outs| > 0 && outs[|outs|-1..] == e.Result()
    requires offs[|offs|-1] == (|Upto(line, was, p)| - len, |Upto(line, was, p)|)
    ensures var s, b := offs[|offs|-1], e.Result()[0];
            (0 <= s.0 <= s.1 <= |text| && [text[s.0..s.1]] == e.Result())
            <==> |b| == len && (e.Vanishes() ==> forall k :: 0 <= k < |b| ==> b[k] == ' ')
  {
    var b := e.Result()[0];
    assert outs[|outs|-1] == outs[|outs|-1..][0] == b;
    assert offs[was.i-1] == offs[..was.i][was.i-1] == was.offs[was.i-1];
    SpanAtEnd(line, was, p, e, len, text, b);
  }

  /** The last span is as long as the argument was; it ends where the one before it does, unless that was split off. */
  ghost predicate SecondSpan(a: string, env: Env, offs: seq<Span>) {
    var n := |offs|;
    && n > 0 && offs[n-1].1 - offs[n-1].0 == |a| && ExpandOf(a, env).Some?
    && (!ExpandOf(a, env).value.Vanishes() ==> n > 1 && offs[n-1].1 == offs[n-2].1)
  }

  lemma ArgsBut(line: string, offs: seq<Span>, m: nat)
    requires Spans(line, offs) && m <= |offs|
    ensures Spans(line, offs[..m]) && Args(line, offs[..m]) == Args(line, offs)[..m]
  {
  }

  /** One more argument is right just if its span shows what it expands to. */
  lemma RightWithLast(line: string, orig: seq<Span>, m: nat, env: Env, text: string, offs: seq<Span>,
                      outs: seq<string>, more: seq<string>)
    requires Spans(line, orig) && m + 1 == |orig| && |offs| > 0
    requires ExpandAll(Args(line, orig)[..m], env) == Some(outs)
    requires ExpandArg(Args(line, orig)[m], env) == Some(more) && Shows(text, offs[..|offs|-1], outs)
    ensures Right(line, orig[..m], env, text, offs[..|offs|-1])
    ensures var s := offs[|offs|-1];
            Right(line, orig, env, text, offs) <==> 0 <= s.0 <= s.1 <= |text| && [text[s.0..s.1]] == more
  {
    var n, s := |offs| - 1, offs[|offs|-1];
    ArgsBut(line, orig, m);
    ExpandOne(Args(line, orig), m, env);
    assert Args(line, orig)[..m+1] == Args(line, orig);
    if 0 <= s.0 <= s.1 <= |text| {
      WithLast(text, offs, outs);
      SameEnd(outs, more, [text[s.0..s.1]]);
    }
  }

  lemma WithLast(text: string, offs: seq<Span>, outs: seq<string>)
    requires |offs| > 0 && Shows(text, offs[..|offs|-1], outs)
    requires var s := offs[|offs|-1]; 0 <= s.0 <= s.1 <= |text|
    ensures Spans(text, offs) && Args(text, offs) == outs + [text[offs[|offs|-1].0..offs[|offs|-1].1]]
  {
    var n := |offs| - 1;
    assert forall k :: 0 <= k < n ==> offs[k] == offs[..n][k];
    assert Args(text, offs)[..n] == outs;
  }

  lemma AgainSecond(line: string, orig: seq<Span>, was: State, m: nat, specs: seq<Option<seq<string>>>,
                    outs: seq<string>, env: Env, text: string, offs: seq<Span>)
    requires Spans(line, orig) && ListedAgain(line, orig, was, m, specs, outs, env, text, offs)
    requires 0 < m && orig[m] == orig[m-1]
    ensures SecondSpan(line[orig[m].0..orig[m].1], env, offs) && Shows(text, offs[..|offs|-1], outs)
  {
    var n := |offs| - 1;
    AgainShown(line, orig, was, m, specs, outs, env, text, offs);
    assert forall k :: 0 <= k < n ==> offs[k] == offs[..n][k];
    AllShown(text, offs[..n], outs);
    if n > 0 {
      assert offs[..n][n-1] == was.offs[..was.i][n-1];
    }
  }

  lemma AgainRight(line: string, orig: seq<Span>, was: State, m: nat, specs: seq<Option<seq<string>>>,
                   outs: seq<string>, env: Env, text: string, offs: seq<Span>)
    requires Spans(line, orig) && ListedAgain(line, orig, was, m, specs, outs, env, text, offs)
    requires 0 < m && orig[m] == orig[m-1] && IsSpec(line, orig, env, specs) && Together(specs, m) == Some(outs)
    ensures var a := line[orig[m].0..orig[m].1];
            && SecondSpan(a, env, offs) && Right(line, orig[..m], env, text, offs[..|offs|-1])
            && (Right(line, orig, env, text, offs) <==> LengthKept(a, env))
  {
    AgainSecond(line, orig, was, m, specs, outs, env, text, offs);
    LastSpan(line, orig, was, m, specs, outs, env, text, offs);
    TogetherAll(line, orig, env, specs, m);
    var more := ExpandOf(line[orig[m].0..orig[m].1], env).value.Result();
    RightWithLast(line, orig, m, env, text, offs, outs, more);
  }

  lemma SameEnd(a: seq<string>, b: seq<string>, c: seq<string>)
    ensures a + b == a + c <==> b == c
  {
    if a + b == a + c {
      assert b == (a + b)[|a|..];
      assert c == (a + c)[|a|..];
    }
  }

  lemma NotBoth(line: string, offs: seq<Span>)
    ensures !(Placed(line, offs) && Repeated(line, offs))
  {
    if Repeated(line, offs) {
      assert !ArgOK(line, offs, |offs| - 1);
    }
  }

  /** Substitute the variables in a line. Cut at the new offsets, the new line gives exactly the arguments that the
      old ones expand to. It is refused as too long only if the line and the values in it are longer than the limit.
      If the last argument is listed twice, all but the second are right, and that is right just if the argument
      keeps its length. */
  method ValueVarSubst(line: string, offsets: seq<Span>, env: Env, limit: nat) returns (r: Result<(string, seq<Span>)>)
    requires Placed(line, offsets) || Repeated(line, offsets)
    ensures Spans(line, offsets)
    ensures r.Ok? && Placed(line, offsets) ==> Right(line, offsets, env, r.value.0, r.value.1)
    ensures r.Ok? && Repeated(line, offsets) ==>
              var n := |offsets| - 1; var a := line[offsets[n].0..offsets[n].1];
              && SecondSpan(a, env, r.value.1)
              && Right(line, offsets[..n], env, r.value.0, r.value.1[..|r.value.1|-1])
              && (Right(line, offsets, env, r.value.0, r.value.1) <==> LengthKept(a, env))
    ensures r == Err(IllFormed) ==> ExpandAll(Args(line, offsets), env) == None
    ensures r == Err(TooLong) ==> |line| + AddedAll(Args(line, offsets)[..Count(line, offsets)], env) > limit
  {
    PlacedSpans(line, offsets);
    ghost var specs := HasSpec(line, offsets, env);
    ghost var m := Count(line, offsets);
    if '$' in line && |line| > limit {
      return Err(TooLong);
    }
    ghost var was, outs;
    r, was, outs := SubstArguments(line, offsets, env, limit, m, specs);
    TogetherAll(line, offsets, env, specs, |offsets|);
    assert Args(line, offsets)[..|offsets|] == Args(line, offsets);
    NotBoth(line, offsets);
    if r == Err(IllFormed) {
      IllFormedStays(specs, m, |offsets|);
    } else if r.Ok? && m < |offsets| {
      AgainRight(line, offsets, was, m, specs, outs, env, r.value.0, r.value.1);
    }
  }

  /** An argument without `$` keeps its length, and is right however often it is listed. */
  lemma PlainKept(a: string, env: Env)
    requires '$' !in a
    ensures LengthKept(a, env)
  {
    Plain(a, env);
    PlainEnding(a, env);
  }

  /** One with a `$` does not when no variables are set. */
  lemma DollarNotKept(a: string)
    requires '$' in a
    ensures !LengthKept(a, map[])
  {
    if ExpandOf(a, map[]).Some? {
      Shrinks(a, Build([], [], false), false);
      var words := ExpandOf(a, map[]).value.Result();
      if |words| == 1 {
        assert words == [] + [words[0]];
        TotalAdd([], words[0]);
      }
    }
  }

  /** So what is listed twice is right whatever the variables are just if there is no `$` in it. */
  lemma KeptAlways(a: string)
    ensures (forall env :: LengthKept(a, env)) <==> '$' !in a
  {
    if '$' in a {
      DollarNotKept(a);
    } else {
      forall env ensures LengthKept(a, env) { PlainKept(a, env); }
    }
  }

  /** What `$x` comes to. */
  lemma RefX(env: Env)
    requires "x" in env
    ensures ExpandOf("$x", env) == Some(Ended([], env["x"], false)) && Added("$x", env) == |env["x"]|
  {
    var a := "$x";
    assert NameRun(a, 2, true) == 2 && NameRun(a, 1, true) == 2;
    assert ParseRef(a) == Some((Ref(false, a[1..2], NoAlt, false, []), 2)) && a[1..2] == "x";
    assert a[2..] == [] && [] + env["x"] == env["x"];
    assert Expand([], env, Build([], env["x"], true), false) == Some(Ended([], env["x"], false));
  }

  lemma OneMore(args: seq<string>, b: string, env: Env)
    requires ExpandAll(args, env).Some? && ExpandArg(b, env).Some?
    ensures AddedAll(args + [b], env) == AddedAll(args, env) + Added(b, env)
    ensures ExpandAll(args + [b], env) == Some(ExpandAll(args, env).value + ExpandArg(b, env).value)
  {
    assert (args + [b])[..|args|] == args;
  }

  lemma TwoArguments(a: string, b: string, env: Env)
    requires '$' !in a && ExpandArg(b, env).Some?
    ensures AddedAll([a, b], env) == Added(b, env) && ExpandAll([a, b], env) == Some([a] + ExpandArg(b, env).value)
  {
    AddedPlain(a, [], env);
    Plain(a, env);
    OneMore([], a, env);
    assert a + [] == a && [] + [a] == [a];
    OneMore([a], b, env);
    assert [a] + [b] == [a, b];
  }

  lemma HelloExpands(two: seq<string>, env: Env)
    requires two == ["a", "$x"] && "x" in env && |env["x"]| == 5
    ensures AddedAll(two, env) == 5 && ExpandAll(two, env) == Some(["a", env["x"]])
    ensures ExpandAll(two + ["$x"], env).Some?
  {
    RefX(env);
    assert Ended([], env["x"], false).Result() == [env["x"]];
    TwoArguments(two[0], two[1], env);
    assert ["a"] + [env["x"]] == ["a", env["x"]];
    OneMore(two, two[1], env);
  }

  lemma HelloArgs(line: string, offsets: seq<Span>) returns (two: seq<string>)
    requires line == "a $x" && offsets == [(0, 1), (2, 4), (2, 4)]
    ensures Repeated(line, offsets) && Count(line, offsets) == 2 && Spans(line, offsets) && line[2..4] == "$x"
    ensures two == ["a", "$x"] && Args(line, offsets)[..2] == two && Args(line, offsets[..2]) == two
    ensures Args(line, offsets) == two + ["$x"]
  {
    assert ArgOK(line, offsets, 0) && ArgOK(line, offsets, 1);
    NotBoth(line, offsets);
    assert line[0..1] == "a" && line[2..4] == "$x";
    two := ["a", "$x"];
    ArgsBut(line, offsets, 2);
  }

  lemma TwoErrors<T>(r: Result<T>)
    ensures r.Ok? || r == Err(IllFormed) || r == Err(TooLong)
  {
    match r
    case Ok(_) =>
    case Err(e) => assert e == IllFormed || e == TooLong;
  }

  /** `a $x ` with `hello` for `x`: the reader lists the second argument twice, and the third comes out as `lo`. */
  method ListedTwice(line: string, offsets: seq<Span>, env: Env, limit: nat) returns (r: Result<(string, seq<Span>)>)
    requires line == "a $x" && offsets == [(0, 1), (2, 4), (2, 4)] && "x" in env && env["x"] == "hello" && limit > 8
    ensures r.Ok? && Spans(r.value.0, r.value.1) && Args(r.value.0, r.value.1) == ["a", "hello", "lo"]
  {
    ghost var two := HelloArgs(line, offsets);
    HelloExpands(two, env);
    r := ValueVarSubst(line, offsets, env, limit);
    TwoErrors(r);
    RefX(env);
    LastTwo(r.value.0, r.value.1);
  }

  lemma LastTwo(text: string, offs: seq<Span>)
    requires |offs| > 1 && Spans(text, offs[..|offs|-1]) && Args(text, offs[..|offs|-1]) == ["a", "hello"]
    requires var n := |offs|; offs[n-1].1 == offs[n-2].1 && offs[n-1].1 - offs[n-1].0 == 2
    ensures Spans(text, offs) && Args(text, offs) == ["a", "hello", "lo"]
  {
    var s, s' := offs[1], offs[2];
    assert s == offs[..2][1];
    assert text[s'.0..s'.1] == text[s.0..s.1][3..];
    assert "hello"[3..] == "lo";
    WithLast(text, offs, ["a", "hello"]);
  }
}
