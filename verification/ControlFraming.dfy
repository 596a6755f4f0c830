/** How the bytes of a control connection are cut into requests. */
module Framing {
  import opened Bytes

  const CAPACITY := 1024

  datatype Frame = More(n: nat) | Whole(n: nat) | Bad

  /** Requests of a fixed size, by the command in their first byte: the command, a handle of four bytes and what the
      command adds to that. */
  function FixedSize(cmd: Byte): nat {
    match cmd
    case 0 => 1  case 8 => 1  case 13 => 1
    case 3 => 6  case 4 => 6  case 5 => 6  case 6 => 6
    case 7 => 5  case 9 => 5  case 16 => 5  case 18 => 5  case 23 => 5
    case 10 => 2
    case 11 => 10  case 12 => 10  case 14 => 10
    case 15 => 6  case 19 => 6  case 20 => 6  case 22 => 6
    case 21 => 9
    case _ => 0
  }

  const FIND_SERVICE: Byte := 1
  const LOAD_SERVICE: Byte := 2
  const SHUTDOWN: Byte := 10
  const SET_ENV: Byte := 17

  predicate IsNamed(cmd: Byte) {
    cmd == FIND_SERVICE || cmd == LOAD_SERVICE || cmd == SET_ENV
  }

  /** The length of the text in a request that carries one, low byte first. */
  function TextLength(b: seq<Byte>): nat
    requires |b| >= 3
  {
    (b[1] as int) + 256 * (b[2] as int)
  }

  /** An environment setting has a name before its first equals sign. */
  predicate IsSetting(text: seq<Byte>) {
    61 in text && text[0] != 61
  }

  const CLOSE_HANDLE: Byte := 23

  /** What each handle stands for, once these requests have been handled. It is what the services make of the requests,
      and so any function; the handles of a connection change only with a request that it handles. */
  type Keys = seq<seq<Byte>> -> map<nat, int>

  /** A handle of four bytes, low byte first. */
  function HandleAt(b: seq<Byte>, at: nat): nat
    requires at + 4 <= |b|
  {
    (b[at] as int) + 0x100 * (b[at+1] as int) + 0x1_0000 * (b[at+2] as int) + 0x100_0000 * (b[at+3] as int)
  }

  /** Commands on the service that a handle stands for, which is known. */
  predicate TakesHandle(cmd: Byte) {
    cmd == 3 || cmd == 4 || cmd == 5 || cmd == 6 || cmd == 7 || cmd == 9 || cmd == 16
  }

  function HandlePlace(cmd: Byte): nat {
    if cmd == 3 || cmd == 4 || cmd == 5 || cmd == 6 then 2 else 1
  }

  /** Commands on a dependency between two services. */
  predicate TakesTwo(cmd: Byte) {
    cmd == 11 || cmd == 12 || cmd == 14
  }

  /** Both handles stand for services, and not for the same one. */
  predicate TwoServices(from: nat, to: nat, known: map<nat, int>) {
    from in known && to in known && known[from] != known[to]
  }

  /** A request of a fixed size that is there, but is not accepted. */
  predicate Unacceptable(b: seq<Byte>, known: map<nat, int>)
    requires b != [] && !IsNamed(b[0]) && 0 < FixedSize(b[0]) <= |b|
  {
    if b[0] == SHUTDOWN then !(1 <= b[1] <= 4)
    else if TakesHandle(b[0]) then HandleAt(b, HandlePlace(b[0])) !in known
    else if TakesTwo(b[0]) then !TwoServices(HandleAt(b, 2), HandleAt(b, 6), known)
    else false
  }

  /** What to make of the bytes at hand: more of them are needed, or the first `n` are a request. */
  function Look(b: seq<Byte>, known: map<nat, int>): (f: Frame)
    requires b != []
    ensures f.More? ==> |b| < f.n <= CAPACITY
    ensures f.Whole? ==> 1 <= f.n <= |b| && f.n <= CAPACITY
  {
    if IsNamed(b[0]) then
      if |b| < 4 then More(4)
      else if TextLength(b) == 0 || TextLength(b) > CAPACITY - 3 then Bad
      else if |b| < TextLength(b) + 3 then More(TextLength(b) + 3)
      else if b[0] == SET_ENV && !IsSetting(b[3..TextLength(b) + 3]) then Bad
      else Whole(TextLength(b) + 3)
    else if FixedSize(b[0]) == 0 then Bad
    else if |b| < FixedSize(b[0]) then More(FixedSize(b[0]))
    else if Unacceptable(b, known) then Bad
    else Whole(FixedSize(b[0]))
  }

  lemma SameAcceptable(b: seq<Byte>, more: seq<Byte>, known: map<nat, int>)
    requires b != [] && !IsNamed(b[0]) && 0 < FixedSize(b[0]) <= |b|
    ensures Unacceptable(b + more, known) <==> Unacceptable(b, known)
  {
  }

  /** A request is recognised whatever comes after it. */
  lemma WholeStays(b: seq<Byte>, more: seq<Byte>, known: map<nat, int>)
    requires b != [] && Look(b, known).Whole?
    ensures Look(b + more, known) == Look(b, known)
  {
    if IsNamed(b[0]) {
      var n := TextLength(b) + 3;
      assert (b + more)[3..n] == b[3..n];
    } else {
      SameAcceptable(b, more, known);
    }
  }

  /** ... and so is what is bad. */
  lemma BadStays(b: seq<Byte>, more: seq<Byte>, known: map<nat, int>)
    requires b != [] && Look(b, known).Bad?
    ensures Look(b + more, known).Bad?
  {
    if IsNamed(b[0]) {
      if |b| >= TextLength(b) + 3 {
        var n := TextLength(b) + 3;
        assert (b + more)[3..n] == b[3..n];
      }
    } else if FixedSize(b[0]) > 0 {
      SameAcceptable(b, more, known);
    }
  }

  /** Until the number of bytes asked for is there, no request is complete. */
  lemma NothingBefore(b: seq<Byte>, more: seq<Byte>, known: map<nat, int>)
    requires b != [] && Look(b, known).More? && |b + more| < Look(b, known).n
    ensures Look(b + more, known) == Look(b, known)
  {
  }

  /** The complete requests at the front of a stream, and what is left. */
  datatype Cut = Cut(packets: seq<seq<Byte>>, rest: seq<Byte>)

  /** ... after the requests in `done` have been handled. */
  function Requests(s: seq<Byte>, done: seq<seq<Byte>>, keys: Keys): Cut
    decreases |s|
  {
    if s == [] || !Look(s, keys(done)).Whole? then Cut([], s)
    else
      var n := Look(s, keys(done)).n;
      var c := Requests(s[n..], done + [s[..n]], keys);
      Cut([s[..n]] + c.packets, c.rest)
  }

  lemma RequestsStep(s: seq<Byte>, done: seq<seq<Byte>>, keys: Keys, n: nat)
    requires s != [] && Look(s, keys(done)) == Whole(n)
    ensures var c := Requests(s[n..], done + [s[..n]], keys);
            Requests(s, done, keys) == Cut([s[..n]] + c.packets, c.rest)
  {
  }

  /** Cutting what came first, and then the rest together with what follows, cuts the whole. */
  lemma {:induction false} CutInSteps(s: seq<Byte>, t: seq<Byte>, done: seq<seq<Byte>>, keys: Keys)
    ensures var a := Requests(s, done, keys); var b := Requests(a.rest + t, done + a.packets, keys);
            Requests(s + t, done, keys) == Cut(a.packets + b.packets, b.rest)
    decreases |s|
  {
    if s != [] && Look(s, keys(done)).Whole? {
      var n := Look(s, keys(done)).n;
      var p, done' := s[..n], done + [s[..n]];
      CutInSteps(s[n..], t, done', keys);
      CutFurther(s, t, done, keys, n);
      var a := Requests(s[n..], done', keys);
      Regrouped(done, p, a.packets);
      RegroupedOne(p, a.packets, Requests(a.rest + t, done' + a.packets, keys).packets);
    } else {
      assert done + [] == done;
      assert [] + Requests(s + t, done, keys).packets == Requests(s + t, done, keys).packets;
    }
  }

  lemma CutFurther(s: seq<Byte>, t: seq<Byte>, done: seq<seq<Byte>>, keys: Keys, n: nat)
    requires s != [] && Look(s, keys(done)) == Whole(n)
    ensures var a := Requests(s[n..], done + [s[..n]], keys); var c := Requests(s[n..] + t, done + [s[..n]], keys);
            && Requests(s, done, keys) == Cut([s[..n]] + a.packets, a.rest)
            && Requests(s + t, done, keys) == Cut([s[..n]] + c.packets, c.rest)
  {
    WholeStays(s, t, keys(done));
    assert (s + t)[..n] == s[..n] && (s + t)[n..] == s[n..] + t;
    RequestsStep(s, done, keys, n);
    RequestsStep(s + t, done, keys, n);
  }

  lemma RegroupedOne(p: seq<Byte>, ps: seq<seq<Byte>>, qs: seq<seq<Byte>>)
    ensures [p] + (ps + qs) == [p] + ps + qs
  {
  }

  lemma Regrouped(ps: seq<seq<Byte>>, p: seq<Byte>, qs: seq<seq<Byte>>)
    ensures ps + ([p] + qs) == ps + [p] + qs
  {
  }

  /** What stays behind is empty, bad, or the beginning of a request. */
  lemma {:induction false} RestIsPartial(s: seq<Byte>, done: seq<seq<Byte>>, keys: Keys)
    ensures var c := Requests(s, done, keys); c.rest == [] || !Look(c.rest, keys(done + c.packets)).Whole?
    decreases |s|
  {
    if s != [] && Look(s, keys(done)).Whole? {
      var n := Look(s, keys(done)).n;
      RestIsPartial(s[n..], done + [s[..n]], keys);
      Regrouped(done, s[..n], Requests(s[n..], done + [s[..n]], keys).packets);
    } else {
      assert done + [] == done;
    }
  }

  /** What is left of a stream is bad. */
  ghost predicate EndsBad(s: seq<Byte>, done: seq<seq<Byte>>, keys: Keys) {
    var c := Requests(s, done, keys);
    c.rest != [] && Look(c.rest, keys(done + c.packets)).Bad?
  }

  lemma EndsBadIs(s: seq<Byte>, keys: Keys)
    ensures EndsBad(s, [], keys) <==>
            var c := Requests(s, [], keys); c.rest != [] && Look(c.rest, keys(c.packets)).Bad?
  {
    assert [] + Requests(s, [], keys).packets == Requests(s, [], keys).packets;
  }

  /** No request in the stream, nor the beginning of one, is bad. */
  ghost predicate Proper(s: seq<Byte>, done: seq<seq<Byte>>, keys: Keys) {
    forall k :: 0 <= k <= |s| ==> !EndsBad(s[..k], done, keys)
  }

  /** A stream that has turned bad stays so, and nothing after that is a request. */
  lemma BadForGood(s: seq<Byte>, k: nat, done: seq<seq<Byte>>, keys: Keys)
    requires k <= |s| && EndsBad(s[..k], done, keys)
    ensures EndsBad(s, done, keys) && Requests(s, done, keys).packets == Requests(s[..k], done, keys).packets
  {
    var r, t := Requests(s[..k], done, keys), s[k..];
    assert s[..k] + t == s;
    CutInSteps(s[..k], t, done, keys);
    BadStays(r.rest, t, keys(done + r.packets));
    assert r.packets + [] == r.packets;
  }

  /** So whether any part of a stream is bad can be told from its end. */
  lemma ProperIs(s: seq<Byte>, done: seq<seq<Byte>>, keys: Keys)
    ensures Proper(s, done, keys) <==> !EndsBad(s, done, keys)
  {
    assert s[..|s|] == s;
    forall k | 0 <= k <= |s| && EndsBad(s[..k], done, keys) ensures EndsBad(s, done, keys) {
      BadForGood(s, k, done, keys);
    }
  }

  predicate IsRequest(p: seq<Byte>, known: map<nat, int>) {
    p != [] && Look(p, known) == Whole(|p|)
  }

  /** Each of them is a request when those before it have been handled. */
  predicate AreRequests(ps: seq<seq<Byte>>, done: seq<seq<Byte>>, keys: Keys) {
    ps == [] || (IsRequest(ps[0], keys(done)) && AreRequests(ps[1..], done + [ps[0]], keys))
  }

  lemma FirstRequest(p: seq<Byte>, more: seq<Byte>, done: seq<seq<Byte>>, keys: Keys)
    requires IsRequest(p, keys(done))
    ensures var c := Requests(more, done + [p], keys); Requests(p + more, done, keys) == Cut([p] + c.packets, c.rest)
  {
    WholeStays(p, more, keys(done));
    assert (p + more)[..|p|] == p && (p + more)[|p|..] == more;
  }

  /** Requests written one after the other are found again. */
  lemma {:induction false} RequestsFound(ps: seq<seq<Byte>>, done: seq<seq<Byte>>, keys: Keys)
    requires AreRequests(ps, done, keys)
    ensures Requests(Concat(ps), done, keys) == Cut(ps, [])
    decreases |ps|
  {
    if ps != [] {
      RequestsFound(ps[1..], done + [ps[0]], keys);
      FirstRequest(ps[0], Concat(ps[1..]), done, keys);
      assert [ps[0]] + ps[1..] == ps;
    }
  }

  /** ... and at no point look bad. */
  lemma RequestsAreProper(ps: seq<seq<Byte>>, done: seq<seq<Byte>>, keys: Keys)
    requires AreRequests(ps, done, keys)
    ensures Proper(Concat(ps), done, keys)
  {
    RequestsFound(ps, done, keys);
    ProperIs(Concat(ps), done, keys);
  }

  /** A new connection knows no handle, and so a request to unpin a service is bad. */
  lemma UnknownHandle(keys: Keys)
    requires keys([]) == map[]
    ensures EndsBad([7, 9, 0, 0, 0], [], keys)
  {
    assert HandleAt([7, 9, 0, 0, 0], 1) == 9;
    assert [] + Requests([7, 9, 0, 0, 0], [], keys).packets == [];
  }

  /** Whatever is known, a dependency of a service on itself is bad. */
  lemma OnItself(keys: Keys, done: seq<seq<Byte>>)
    ensures EndsBad([11, 0, 1, 0, 0, 0, 1, 0, 0, 0], done, keys)
  {
    var s := [11, 0, 1, 0, 0, 0, 1, 0, 0, 0];
    assert HandleAt(s, 2) == HandleAt(s, 6);
    assert done + Requests(s, done, keys).packets == done;
  }
}

module ControlConnection {
  import opened Bytes
  import opened RingBuffer
  import opened Framing

  const REGULAR: Byte := 0
  const WAITS_FOR: Byte := 2
  const MILESTONE: Byte := 3

  /** The receiving side of a connection. `received` is all that has been read, `processed` the requests handled, and
      `refusals` how often a request was answered as bad and left in the buffer. What the services make of the requests
      shows in the handles that are known, `keys`. */
  class Connection {
    const rbuf: CpBuffer
    const keys: Keys
    var chklen: nat
    var badConnClose: bool
    var processed: seq<seq<Byte>>

    ghost var received: seq<Byte>
    ghost var refusals: nat

    ghost predicate Base()
      reads this, rbuf, rbuf.buf
    {
      rbuf.Valid() && rbuf.buf.Length == CAPACITY
    }

    /** Between reads: the requests complete so far have been handled, the rest is in the buffer, and `chklen` tells
        when to look again. */
    ghost predicate Valid()
      reads this, rbuf, rbuf.buf
    {
      && Base()
      && Requests(received, [], keys) == Cut(processed, rbuf.Contents())
      && (rbuf.Contents() == [] ==> chklen <= 1)
      && (rbuf.Contents() != [] ==> Look(rbuf.Contents(), keys(processed)) == More(chklen))
    }

    constructor (keys: Keys)
      ensures Valid() && fresh(rbuf) && fresh(rbuf.buf) && received == [] && processed == [] && this.keys == keys
    {
      this.keys := keys;
      rbuf := new CpBuffer(CAPACITY);
      chklen, badConnClose := 0, false;
      received, processed, refusals := [], [], 0;
    }

    /** A request that is answered as bad and consumed all the same: it closes a handle that is not known, or is about a
        kind of dependency that does not exist. */
    predicate Complained(p: seq<Byte>, known: map<nat, int>) {
      && p != [] && |p| == FixedSize(p[0]) && !IsNamed(p[0])
      && if p[0] == CLOSE_HANDLE then HandleAt(p, 1) !in known
         else TakesTwo(p[0]) && p[1] != REGULAR && p[1] != WAITS_FOR && p[1] != MILESTONE
    }

    /** What looking at the front of the buffer leads to. */
    twostate predicate Looked(was: seq<Byte>)
      requires was != []
      reads this, rbuf, rbuf.buf
    {
      && Base()
      && match Look(was, keys(old(processed)))
         case More(n) =>
           && rbuf.Contents() == was && chklen == n && processed == old(processed) && refusals == old(refusals)
           && badConnClose == old(badConnClose)
         case Whole(n) =>
           && rbuf.Contents() == was[n..] && chklen == (if was[0] == 0 then old(chklen) else 0)
           && processed == old(processed) + [was[..n]] && refusals == old(refusals)
           && badConnClose == (old(badConnClose) || Complained(was[..n], keys(old(processed))))
         case Bad =>
           && rbuf.Contents() == was && (chklen == old(chklen) || (1 < chklen <= |was| && was[0] != 0))
           && processed == old(processed) && refusals == old(refusals) + 1 && badConnClose
    }

    /** Handle the request at the front of the buffer if it is complete; otherwise find out how much is needed. A bad
        request is answered and stays where it is. */
    method ProcessPacket()
      requires Base() && rbuf.Contents() != []
      modifies this`chklen, this`processed, this`badConnClose, this`refusals, rbuf, rbuf.buf
      ensures Looked(old(rbuf.Contents()))
    {
      var cmd := rbuf.At(0);
      if IsNamed(cmd) {
        ProcessNamed(cmd);
      } else {
        ProcessFixed(cmd);
      }
    }

    /** A request that carries a text. */
    method ProcessNamed(cmd: Byte)
      requires Base() && rbuf.Contents() != [] && rbuf.Contents()[0] == cmd && IsNamed(cmd)
      modifies this`chklen, this`processed, this`badConnClose, this`refusals, rbuf, rbuf.buf
      ensures Looked(old(rbuf.Contents()))
    {
      if rbuf.length < 4 {
        chklen := 4;
        return;
      }
      var lo := rbuf.At(1);
      var hi := rbuf.At(2);
      var len := (lo as int) + 256 * (hi as int);
      ghost var was := rbuf.Contents();
      NamedFrame(was, len, keys(processed));
      if len == 0 || len > CAPACITY - 3 {
        badConnClose, refusals := true, refusals + 1;
        return;
      }
      chklen := len + 3;
      if rbuf.length < chklen {
        return;
      }
      var text := rbuf.Extract(3, len);
      if cmd == SET_ENV && !IsSetting(text) {
        badConnClose, refusals := true, refusals + 1;
        return;
      }
      var b := rbuf.Extract(0, len + 3);
      processed := processed + [b];
      rbuf.Consume(chklen);
      chklen := 0;
    }

    /** A request of a fixed size, or none that is known. */
    method ProcessFixed(cmd: Byte)
      requires Base() && rbuf.Contents() != [] && rbuf.Contents()[0] == cmd && !IsNamed(cmd)
      modifies this`chklen, this`processed, this`badConnClose, this`refusals, rbuf, rbuf.buf
      ensures Looked(old(rbuf.Contents()))
    {
      var size := FixedSize(cmd);
      if size == 0 {
        badConnClose, refusals := true, refusals + 1;
        return;
      }
      if rbuf.length < size {
        chklen := size;
        return;
      }
      var b := rbuf.Extract(0, size);
      FixedFrame(rbuf.Contents(), size, keys(processed));
      if Unacceptable(b, keys(processed)) {
        badConnClose, refusals := true, refusals + 1;
        return;
      }
      badConnClose := badConnClose || Complained(b, keys(processed));
      processed := processed + [b];
      rbuf.Consume(size);
      if cmd != 0 {
        chklen := 0;
      }
    }

    /** What the loop below keeps: everything received is in the requests handled and in the buffer. */
    ghost predicate Looping()
      reads this, rbuf, rbuf.buf
    {
      && Base()
      && (var c := Requests(rbuf.Contents(), processed, keys);
          Requests(received, [], keys) == Cut(processed + c.packets, c.rest))
      && (chklen <= 1 || (rbuf.Contents() != [] && rbuf.Contents()[0] != 0))
      && (rbuf.Contents() == [] ==> chklen == 1)
      && (chklen == 0 ==> rbuf.Contents() != [])
      && (rbuf.length < chklen && rbuf.Contents() != [] ==>
            Look(rbuf.Contents(), keys(processed)) == More(chklen))
    }

    /** Handle requests while they are complete, for up to `steps` rounds; nothing limits them in the loop that is
        modelled. It ends if and only if what is left is not bad, and then after as many rounds as there are bytes and
        one more. Otherwise it goes on refusing what is left. */
    method HandleComplete(steps: nat) returns (ended: bool)
      requires Looping()
      modifies this`chklen, this`processed, this`badConnClose, this`refusals, rbuf, rbuf.buf
      ensures Looping() && (ended ==> Valid() && !EndsBad(received, [], keys))
      ensures !EndsBad(received, [], keys) && steps > old(rbuf.length) ==> ended
      ensures EndsBad(received, [], keys) ==>
                !ended && rbuf.length >= chklen && refusals + old(rbuf.length) >= old(refusals) + steps
      ensures steps > old(rbuf.length) ==> processed == Requests(received, [], keys).packets
    {
      var left := steps;
      while left > 0 && rbuf.length >= chklen
        invariant Looping() && left <= steps && rbuf.length <= old(rbuf.length)
        invariant !EndsBad(received, [], keys) && rbuf.length >= chklen ==>
                    steps - left + rbuf.length <= old(rbuf.length)
        invariant EndsBad(received, [], keys) ==>
                    rbuf.length >= chklen && refusals + old(rbuf.length) >= old(refusals) + (steps - left) + rbuf.length
        invariant refusals > old(refusals) ==> Refused()
        decreases left
      {
        left := left - 1;
        HandleNext();
      }
      ended := rbuf.length < chklen;
      if ended {
        NothingLeft(rbuf.Contents(), processed, keys);
      }
      if Refused() {
        OnlyRest(rbuf.Contents(), processed, keys);
      }
    }

    /** What is at the front of the buffer is bad. */
    ghost predicate Refused()
      requires rbuf.Valid()
      reads this, rbuf, rbuf.buf
    {
      rbuf.Contents() != [] && Look(rbuf.Contents(), keys(processed)).Bad?
    }

    /** One round of the loop. */
    method HandleNext()
      requires Looping() && rbuf.length >= chklen
      modifies this`chklen, this`processed, this`badConnClose, this`refusals, rbuf, rbuf.buf
      ensures Looping() && rbuf.length <= old(rbuf.length)
      ensures !EndsBad(received, [], keys) ==> rbuf.length < old(rbuf.length) || rbuf.length < chklen
      ensures EndsBad(received, [], keys) ==>
                rbuf.length >= chklen && refusals + old(rbuf.length) >= old(refusals) + 1 + rbuf.length
      ensures refusals >= old(refusals) && (refusals > old(refusals) || old(Refused()) ==> Refused())
    {
      ghost var c := rbuf.Contents();
      ghost var ps := processed;
      ProcessPacket();
      if chklen < 1 {
        chklen := 1;
      }
      if Look(c, keys(ps)).Whole? {
        FirstHandled(c, Look(c, keys(ps)).n, ps, processed, keys);
      } else {
        OnlyRest(c, ps, keys);
        EndsBadIs(received, keys);
      }
    }

    /** Read once and handle the requests that are complete. The loop for that ends if and only if nothing is bad; it is
        followed for `steps` rounds beyond the bytes there are. The buffer never fills up when it ends. */
    method DataReady(avail: seq<Byte>, steps: nat) returns (n: nat, ended: bool, tooBig: bool)
      requires Valid() && avail != []
      modifies this, rbuf, rbuf.buf
      ensures 1 <= n <= |avail| && received == old(received) + avail[..n]
              && processed == Requests(received, [], keys).packets
      ensures (ended <==> !EndsBad(received, [], keys)) && (ended ==> Valid() && !tooBig)
      ensures !ended ==> refusals >= old(refusals) + steps
    {
      n := TakeIn(avail);
      ended := HandleComplete(rbuf.length + 1 + steps);
      tooBig := rbuf.length == CAPACITY;
    }

    method TakeIn(avail: seq<Byte>) returns (n: nat)
      requires Valid() && avail != []
      modifies this`received, rbuf, rbuf.buf
      ensures Looping() && 1 <= n <= |avail| && received == old(received) + avail[..n]
    {
      ghost var c0 := rbuf.Contents();
      n := rbuf.Fill(avail, CAPACITY);
      CutInSteps(received, avail[..n], [], keys);
      assert [] + processed == processed;
      if c0 != [] && |c0 + avail[..n]| < chklen {
        NothingBefore(c0, avail[..n], keys(processed));
      }
      received := received + avail[..n];
      assert rbuf.Contents()[0] == (if c0 == [] then avail[0] else c0[0]);
    }
  }

  lemma FirstHandled(c: seq<Byte>, n: nat, ps: seq<seq<Byte>>, ps': seq<seq<Byte>>, keys: Keys)
    requires c != [] && Look(c, keys(ps)) == Whole(n) && ps' == ps + [c[..n]]
    ensures var r := Requests(c[n..], ps', keys);
            Requests(c, ps, keys).rest == r.rest && ps + Requests(c, ps, keys).packets == ps' + r.packets
  {
    RequestsStep(c, ps, keys, n);
    Regrouped(ps, c[..n], Requests(c[n..], ps', keys).packets);
  }

  lemma NamedFrame(b: seq<Byte>, len: nat, known: map<nat, int>)
    requires |b| >= 4 && IsNamed(b[0]) && TextLength(b) == len
    ensures len == 0 || len > CAPACITY - 3 ==> Look(b, known) == Bad
    ensures 0 < len <= CAPACITY - 3 && |b| < len + 3 ==> Look(b, known) == More(len + 3)
    ensures 0 < len <= CAPACITY - 3 && |b| >= len + 3 ==>
              Look(b, known) == if b[0] == SET_ENV && !IsSetting(b[3..len + 3]) then Bad else Whole(len + 3)
  {
  }

  lemma FixedFrame(b: seq<Byte>, size: nat, known: map<nat, int>)
    requires b != [] && !IsNamed(b[0]) && 0 < size == FixedSize(b[0]) <= |b|
    ensures Look(b, known) == if Unacceptable(b[..size], known) then Bad else Whole(size)
  {
    assert b[..size] + b[size..] == b;
    SameAcceptable(b[..size], b[size..], known);
  }

  lemma OnlyRest(c: seq<Byte>, done: seq<seq<Byte>>, keys: Keys)
    requires c != [] && !Look(c, keys(done)).Whole?
    ensures Requests(c, done, keys) == Cut([], c) && done + [] == done
  {
  }

  lemma NothingLeft(b: seq<Byte>, ps: seq<seq<Byte>>, keys: Keys)
    requires b == [] || Look(b, keys(ps)).More?
    ensures Requests(b, ps, keys) == Cut([], b) && ps + [] == ps
  {
  }

  /** However a stream is broken up on the way, the requests handled are those before the first that is bad, and the
      connection gets stuck exactly if there is one. */
  method Receive(stream: seq<Byte>, keys: Keys) returns (conn: Connection, stuck: bool)
    ensures stuck <==> EndsBad(stream, [], keys)
    ensures conn.received <= stream && conn.processed == Requests(stream, [], keys).packets && conn.keys == keys
    ensures !stuck ==> conn.Valid() && conn.received == stream
  {
    conn := new Connection(keys);
    var at := 0;
    stuck := false;
    while at < |stream| && !stuck
      invariant fresh(conn) && fresh(conn.rbuf) && fresh(conn.rbuf.buf) && at <= |stream|
                && conn.received == stream[..at] && conn.keys == keys
      invariant (stuck <==> EndsBad(conn.received, [], keys)) && (!stuck ==> conn.Valid())
                && conn.processed == Requests(conn.received, [], keys).packets
      decreases |stream| - at, !stuck
    {
      var k: nat :| at < k <= |stream|;
      var n, ended, _ := conn.DataReady(stream[at..k], 0);
      Further(stream, at, k, n);
      at, stuck := at + n, !ended;
    }
    NothingAfter(stream, at, keys);
  }

  lemma Further(stream: seq<Byte>, at: nat, k: nat, n: nat)
    requires at < k <= |stream| && n <= k - at
    ensures stream[..at] + stream[at..k][..n] == stream[..at + n]
  {
  }

  lemma NothingAfter(stream: seq<Byte>, at: nat, keys: Keys)
    requires at <= |stream| && (at == |stream| || EndsBad(stream[..at], [], keys))
    ensures EndsBad(stream[..at], [], keys) == EndsBad(stream, [], keys)
    ensures Requests(stream[..at], [], keys).packets == Requests(stream, [], keys).packets
  {
    if at == |stream| {
      assert stream[..at] == stream;
    } else {
      BadForGood(stream, at, [], keys);
    }
  }
}
