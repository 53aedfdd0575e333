/** The double-buffered logger as two threads of atomic steps: appends under the lock, the
    background thread's swap under the lock, and its write-and-recycle outside it. */
module AsyncLogging {
  import opened Optional

  const CAPACITY: nat := 4 * 1000 * 1000
  const STORM: nat := 25

  /** A fixed-size buffer: its identity and the text in it. */
  datatype Buffer = Buffer(id: nat, text: string)
  {
    function Avail(): int { CAPACITY - |text| }

    /** Text that does not fit, with a byte to spare, is discarded. */
    function Append(s: string): Buffer {
      if Avail() > |s| then this.(text := text + s) else this
    }

    function Cleared(): Buffer { this.(text := "") }
  }

  /** Everything the two threads share or own, and the file. */
  datatype Store = Store(
    current: Buffer, next: Option<Buffer>, queue: seq<Buffer>,
    toWrite: seq<Buffer>, spare1: Option<Buffer>, spare2: Option<Buffer>,
    file: string, created: nat)

  const INITIAL := Store(Buffer(0, ""), Some(Buffer(1, "")), [],
                         [], Some(Buffer(2, "")), Some(Buffer(3, "")), "", 4)

  // ---------------------------------------------------------------- the steps

  function AfterAppend(s: Store, line: string): Store {
    if s.current.Avail() > |line| then s.(current := s.current.Append(line))
    else if s.next.Some? then
      s.(queue := s.queue + [s.current], current := s.next.value.Append(line), next := None)
    else
      s.(queue := s.queue + [s.current], current := Buffer(s.created, "").Append(line), created := s.created + 1)
  }

  /** The background thread is at the top of its loop, where the source asserts both spares. */
  predicate AtTop(s: Store) { s.toWrite == [] && s.spare1.Some? && s.spare2.Some? }

  function AfterSwap(s: Store): Store
    requires AtTop(s)
  {
    var t := s.(toWrite := s.queue + [s.current], queue := [], current := s.spare1.value, spare1 := None);
    if s.next.Some? then t else t.(next := s.spare2, spare2 := None)
  }

  /** What of a collected batch is written: all of it, or in a storm the first two buffers. */
  function Retained(batch: seq<Buffer>): seq<Buffer> {
    if |batch| > STORM then batch[..2] else batch
  }

  function Notice(batch: seq<Buffer>, notice: string): string {
    if |batch| > STORM then notice else ""
  }

  function AfterWrite(s: Store, notice: string): Store
    requires s.toWrite != [] && (s.spare2.None? ==> |s.toWrite| > 1)
  {
    var batch := Retained(s.toWrite);
    var n := |batch|;
    var t := s.(file := s.file + Notice(s.toWrite, notice) + Texts(batch), toWrite := []);
    var refill := n <= 2 && s.spare1.None?;
    var left := if n > 2 then 2 else if refill then n - 1 else n;
    t.(spare1 := if refill then Some(batch[n - 1].Cleared()) else s.spare1,
       spare2 := if s.spare2.None? then Some(batch[left - 1].Cleared()) else s.spare2)
  }

  class Logger {
    var current: Buffer
    var next: Option<Buffer>
    var queue: seq<Buffer>
    var spare1: Option<Buffer>     // newBuffer1, newBuffer2
    var spare2: Option<Buffer>
    var toWrite: seq<Buffer>
    var file: string
    var created: nat

    function View(): Store
      reads this
    {
      Store(current, next, queue, toWrite, spare1, spare2, file, created)
    }

    constructor ()
      ensures View() == INITIAL
    {
      current, next, queue := Buffer(0, ""), Some(Buffer(1, "")), [];
      spare1, spare2, toWrite := Some(Buffer(2, "")), Some(Buffer(3, "")), [];
      file, created := "", 4;
    }

    method Append(line: string)
      modifies this
      ensures View() == AfterAppend(old(View()), line)
    {
      if current.Avail() > |line| {
        current := current.Append(line);
      } else {
        queue := queue + [current];
        if next.Some? {
          current := next.value;
          next := None;
        } else {
          current := Buffer(created, "");
          created := created + 1;
        }
        current := current.Append(line);
      }
    }

    method Swap()
      requires AtTop(View())
      modifies this
      ensures View() == AfterSwap(old(View()))
    {
      queue := queue + [current];
      current := spare1.value;
      spare1 := None;
      toWrite := queue;
      queue := [];
      if next.None? {
        next := spare2;
        spare2 := None;
      }
    }

    method WriteOut()
      modifies this`file
      ensures file == old(file) + Texts(toWrite)
    {
      hide Texts;
      TextsEnds();
      for i := 0 to |toWrite|
        invariant file == old(file) + Texts(toWrite[..i])
      {
        TextsAppend(toWrite[..i], toWrite[i]);
        assert toWrite[..i + 1] == toWrite[..i] + [toWrite[i]];
        file := file + toWrite[i].text;
      }
      assert toWrite[..|toWrite|] == toWrite;
    }

    method WriteAndRecycle(notice: string)
      requires toWrite != [] && (spare2.None? ==> |toWrite| > 1)
      modifies this
      ensures View() == AfterWrite(old(View()), notice)
    {
      hide Texts;
      if |toWrite| > STORM {
        file := file + notice;
        toWrite := toWrite[..2];
      } else {
        assert file == file + "";
      }
      WriteOut();
      if |toWrite| > 2 {
        toWrite := toWrite[..2];
      } else if spare1.None? {
        spare1 := Some(toWrite[|toWrite| - 1].Cleared());
        toWrite := toWrite[..|toWrite| - 1];
      }
      if spare2.None? {
        spare2 := Some(toWrite[|toWrite| - 1].Cleared());
        toWrite := toWrite[..|toWrite| - 1];
      }
      toWrite := [];
    }
  }

  // ---------------------------------------------------------------- order

  function Texts(bs: seq<Buffer>): string {
    if bs == [] then "" else Texts(bs[..|bs| - 1]) + bs[|bs| - 1].text
  }

  lemma TextsEnds()
    ensures Texts([]) == ""
  {}

  lemma {:induction false} TextsAppend(bs: seq<Buffer>, b: Buffer)
    ensures Texts(bs + [b]) == Texts(bs) + b.text
  {
    assert (bs + [b])[..|bs|] == bs;
  }

  /** Text not yet in the file: being written, then queued, then being filled. */
  function Pending(s: Store): string { Texts(s.toWrite) + Texts(s.queue) + s.current.text }

  function Accepted(line: string): string { if |line| < CAPACITY then line else "" }

  /** What is true of every reachable store: unused buffers are empty, the front spare is away
      exactly when something is queued, the second back spare exactly when a batch needs it. */
  predicate Tidy(s: Store) {
    && |s.current.text| < CAPACITY
    && (s.next.Some? ==> s.next.value.text == "")
    && (s.spare1.Some? ==> s.spare1.value.text == "") && (s.spare2.Some? ==> s.spare2.value.text == "")
    && (s.next.Some? <==> s.queue == [])
    && (s.spare2.Some? <==> |s.toWrite| <= 1)
    && (s.toWrite != [] ==> s.spare1.None?)
  }

  lemma {:induction false} AppendKeepsOrder(s: Store, line: string)
    requires Tidy(s)
    ensures Tidy(AfterAppend(s, line))
    ensures s.file + Pending(AfterAppend(s, line)) == s.file + Pending(s) + if |line| < 4000000 then line else ""
  {
    hide Texts;
    var w, q, c := Texts(s.toWrite), Texts(s.queue), s.current.text;
    TextsAppend(s.queue, s.current);
    assert (w + q) + (c + line) == ((w + q) + c) + line;
    assert w + (q + c) == (w + q) + c;
    assert "" + line == line && Pending(s) + "" == Pending(s);
    assert s.file + (Pending(s) + Accepted(line)) == s.file + Pending(s) + Accepted(line);
  }

  lemma {:induction false} SwapKeepsOrder(s: Store)
    requires Tidy(s) && AtTop(s)
    ensures Tidy(AfterSwap(s)) && Pending(AfterSwap(s)) == Pending(s)
  {
    hide Texts;
    TextsAppend(s.queue, s.current);
    TextsEnds();
    assert "" + Texts(s.queue) == Texts(s.queue);
    assert Texts(s.queue) + s.current.text + "" + "" == Texts(s.queue) + s.current.text;
  }

  lemma {:induction false} TwoTexts(bs: seq<Buffer>)
    requires |bs| == 2
    ensures Texts(bs) == bs[0].text + bs[1].text
  {
    assert bs[..1][..0] == [];
    assert Texts(bs[..1]) == "" + bs[0].text;
  }

  /** A batch of up to 25 buffers goes to the file whole; of a larger one only the two oldest
      do, after the notice. Both spares are back for the next
      round exactly when the batch had at most two buffers, or so many that most were dropped:
      a round of 3 to 25 runs into the assertion at the top of the loop. */
  lemma {:induction false} WriteKeepsOrder(s: Store, notice: string)
    requires Tidy(s) && s.toWrite != []
    ensures var t := AfterWrite(s, notice);
      && Tidy(t) && t.toWrite == []
      && (|s.toWrite| <= 25 ==> t.file + Pending(t) == s.file + Pending(s))
      && (|s.toWrite| > 25 ==> t.file == s.file + notice + (s.toWrite[0].text + s.toWrite[1].text))
      && (AtTop(t) <==> |s.toWrite| <= 2 || |s.toWrite| > 25)
  {
    hide Texts;
    TextsEnds();
    var t := AfterWrite(s, notice);
    var w, rest := Texts(s.toWrite), Texts(s.queue) + s.current.text;
    if |s.toWrite| <= STORM {
      assert t.file == s.file + "" + w && s.file + "" == s.file;
      assert Pending(s) == w + rest && Pending(t) == "" + rest;
      assert "" + rest == rest && (s.file + w) + rest == s.file + (w + rest);
    } else {
      TwoTexts(s.toWrite[..2]);
    }
  }

  // ---------------------------------------------------------------- ownership

  function Ids(bs: seq<Buffer>): multiset<nat> {
    if bs == [] then multiset{} else Ids(bs[..|bs| - 1]) + multiset{bs[|bs| - 1].id}
  }

  function IdOf(b: Option<Buffer>): multiset<nat> {
    if b.Some? then multiset{b.value.id} else multiset{}
  }

  function FrontIds(s: Store): multiset<nat> { multiset{s.current.id} + IdOf(s.next) + Ids(s.queue) }

  function BackIds(s: Store): multiset<nat> { Ids(s.toWrite) + IdOf(s.spare1) + IdOf(s.spare2) }

  function AllIds(s: Store): multiset<nat> { FrontIds(s) + BackIds(s) }

  /** While no round has collected more than two buffers. */
  predicate Lean(s: Store) {
    && |s.toWrite| <= 2 && (s.toWrite == [] ==> s.spare1.Some?)
    && s.created == 4 + (if |s.queue| <= 1 then 0 else |s.queue| - 1)
    && (|s.queue| <= 1 ==> AllIds(s) == multiset{0, 1, 2, 3})
  }

  lemma {:induction false} IdsAppend(bs: seq<Buffer>, b: Buffer)
    ensures Ids(bs + [b]) == Ids(bs) + multiset{b.id} && Ids([]) == multiset{}
  {
    assert (bs + [b])[..|bs|] == bs;
  }

  lemma {:induction false} AppendKeepsIds(s: Store, line: string)
    requires Tidy(s) && (s.next.Some? || s.current.Avail() > |line|)
    ensures FrontIds(AfterAppend(s, line)) == FrontIds(s)
  {
    hide Ids;
    IdsAppend(s.queue, s.current);
  }

  lemma {:induction false} AppendKeepsLean(s: Store, line: string)
    requires Tidy(s) && Lean(s)
    ensures Lean(AfterAppend(s, line))
  {
    hide Ids, FrontIds;
    if s.next.Some? || s.current.Avail() > |line| {
      AppendKeepsIds(s, line);
    }
    assert BackIds(AfterAppend(s, line)) == BackIds(s);
  }

  lemma {:induction false} SwapKeepsLean(s: Store)
    requires Tidy(s) && Lean(s) && AtTop(s) && |s.queue| <= 1
    ensures Lean(AfterSwap(s))
  {
    hide Ids;
    IdsAppend(s.queue, s.current);
  }

  lemma {:induction false} IdsOfShort(bs: seq<Buffer>)
    ensures bs == [] ==> Ids(bs) == multiset{}
    ensures |bs| == 1 ==> Ids(bs) == multiset{bs[0].id}
    ensures |bs| == 2 ==> Ids(bs) == multiset{bs[0].id} + multiset{bs[1].id}
  {
    if |bs| == 1 {
      assert bs[..0] == [];
    } else if |bs| == 2 {
      assert bs[..1][..0] == [];
      assert Ids(bs[..1]) == multiset{bs[0].id};
    }
  }

  lemma {:induction false} WriteKeepsLean(s: Store, notice: string)
    requires Tidy(s) && Lean(s) && s.toWrite != []
    ensures Lean(AfterWrite(s, notice))
  {
    hide Ids, Texts;
    IdsOfShort(s.toWrite);
    IdsOfShort([]);
    var t := AfterWrite(s, notice);
    assert FrontIds(t) == FrontIds(s);
    assert BackIds(t) == BackIds(s);
  }

  // ---------------------------------------------------------------- all interleavings

  datatype Event = Log(line: string) | Collect | Write(notice: string)

  predicate Enabled(s: Store, e: Event) {
    match e
    case Log(_) => true
    case Collect => AtTop(s)
    case Write(_) => s.toWrite != [] && (s.spare2.None? ==> |s.toWrite| > 1)
  }

  function Step(s: Store, e: Event): Store
    requires Enabled(s, e)
  {
    match e
    case Log(line) => AfterAppend(s, line)
    case Collect => AfterSwap(s)
    case Write(notice) => AfterWrite(s, notice)
  }

  /** A run in which every round collects at most limit buffers. */
  predicate Runs(s: Store, es: seq<Event>, limit: nat)
    decreases es
  {
    es == [] ||
    (Enabled(s, es[0]) && (es[0].Collect? ==> |s.queue| + 1 <= limit) && Runs(Step(s, es[0]), es[1..], limit))
  }

  function End(s: Store, es: seq<Event>, limit: nat): Store
    requires Runs(s, es, limit)
    decreases es
  {
    if es == [] then s else End(Step(s, es[0]), es[1..], limit)
  }

  function Logged(es: seq<Event>): string {
    if es == [] then "" else (if es[0].Log? then Accepted(es[0].line) else "") + Logged(es[1..])
  }

  lemma {:induction false} OrderFrom(s: Store, es: seq<Event>, limit: nat)
    requires Tidy(s) && |s.toWrite| <= limit <= STORM && Runs(s, es, limit)
    ensures var t := End(s, es, limit); Tidy(t) && t.file + Pending(t) == s.file + Pending(s) + Logged(es)
    decreases es
  {
    hide Tidy, Pending, AfterAppend, AfterWrite;
    var now := s.file + Pending(s);
    assert now + "" == now;
    if es != [] {
      var add := if es[0].Log? then Accepted(es[0].line) else "";
      match es[0] {
        case Log(line) => AppendKeepsOrder(s, line); AppendFrame(s, line);
        case Collect => SwapKeepsOrder(s);
        case Write(notice) => WriteKeepsOrder(s, notice);
      }
      OrderFrom(Step(s, es[0]), es[1..], limit);
      assert (now + add) + Logged(es[1..]) == now + (add + Logged(es[1..]));
    }
  }

  lemma AppendFrame(s: Store, line: string)
    ensures AfterAppend(s, line).file == s.file && AfterAppend(s, line).toWrite == s.toWrite
  {}

  /** Over every interleaving in which no round collects more than 25 buffers: the file, then
      the buffers being written, queued and filled, are all accepted lines in lock order. */
  lemma {:induction false} OrderOfLines(es: seq<Event>)
    requires Runs(INITIAL, es, STORM)
    ensures var t := End(INITIAL, es, STORM); t.file + Pending(t) == Logged(es)
  {
    hide End;
    OrderFrom(INITIAL, es, STORM);
    TextsEnds();
    assert INITIAL.file + Pending(INITIAL) == "";
    assert "" + Logged(es) == Logged(es);
  }

  lemma RunsFirst(s: Store, es: seq<Event>, limit: nat)
    requires es != [] && Enabled(s, es[0]) && (es[0].Collect? ==> |s.queue| + 1 <= limit)
    ensures Runs(s, es, limit) <==> Runs(Step(s, es[0]), es[1..], limit)
    ensures Runs(s, es, limit) ==> End(s, es, limit) == End(Step(s, es[0]), es[1..], limit)
  {}

  /** Three lines that fill a buffer each, logged before the first round, are enough: after it
      nothing is being written and the first spare is missing. */
  lemma {:induction false} ThreeBuffersLoseASpare(line: string, notice: string)
    requires |line| == CAPACITY - 1
    ensures var es := [Log(line), Log(line), Log(line), Collect, Write(notice)];
      && Runs(INITIAL, es, 3)
      && End(INITIAL, es, 3).toWrite == [] && End(INITIAL, es, 3).spare1 == None
      && !AtTop(End(INITIAL, es, 3))
  {
    hide Texts;
    var l, w := Log(line), Write(notice);
    var s1 := AfterAppend(INITIAL, line);
    var s2 := AfterAppend(s1, line);
    var s3 := AfterAppend(s2, line);
    assert s1.queue == [] && |s2.queue| == 1 && |s3.queue| == 2;
    var s4 := AfterSwap(s3);
    assert |s4.toWrite| == 3 && s4.spare1 == None && s4.spare2 == None;
    var s5 := AfterWrite(s4, notice);
    assert [w][1..] == [] && [Collect, w][1..] == [w] && [l, Collect, w][1..] == [Collect, w];
    assert [l, l, Collect, w][1..] == [l, Collect, w] && [l, l, l, Collect, w][1..] == [l, l, Collect, w];
    assert Runs(s5, [], 3) && End(s5, [], 3) == s5;
    hide AfterAppend, AfterSwap, AfterWrite;
    RunsFirst(s4, [w], 3);
    RunsFirst(s3, [Collect, w], 3);
    RunsFirst(s2, [l, Collect, w], 3);
    RunsFirst(s1, [l, l, Collect, w], 3);
    RunsFirst(INITIAL, [l, l, l, Collect, w], 3);
  }

  lemma {:induction false} LeanFrom(s: Store, es: seq<Event>)
    requires Tidy(s) && Lean(s) && Runs(s, es, 2)
    ensures Tidy(End(s, es, 2)) && Lean(End(s, es, 2))
    decreases es
  {
    hide Tidy, Lean, AfterAppend, AfterSwap, AfterWrite, Pending;
    if es != [] {
      match es[0] {
        case Log(line) => AppendKeepsOrder(s, line); AppendKeepsLean(s, line);
        case Collect => SwapKeepsOrder(s); SwapKeepsLean(s);
        case Write(notice) => WriteKeepsOrder(s, notice); WriteKeepsLean(s, notice);
      }
      LeanFrom(Step(s, es[0]), es[1..]);
    }
  }

  /** Over every interleaving in which no round collects more than two: whenever the background
      thread is between rounds both spares are there, and as long as no more than one full
      buffer waits, the same four buffers circulate and none has been created. */
  lemma {:induction false} FourBuffersCirculate(es: seq<Event>)
    requires Runs(INITIAL, es, 2)
    ensures var t := End(INITIAL, es, 2);
      && (t.toWrite == [] ==> AtTop(t))
      && (|t.queue| <= 1 ==> t.created == 4 && AllIds(t) == multiset{0, 1, 2, 3})
  {
    hide End;
    LeanFrom(INITIAL, es);
  }
}
