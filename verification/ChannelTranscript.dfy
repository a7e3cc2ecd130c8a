// Conversation compaction: a watermarked rolling summary over an append-only log whose old prefix is archived underneath.
module ChannelTranscript {
  import opened Text

  // How much history a roll reads.
  const ROLL_LIMIT := 100000

  // One message. `id` is unique; the model numbers messages in the order they are recorded.
  datatype Entry = Entry(id: nat, conv: string, ts: int, msg: Option<string>)

  function Of(log: seq<Entry>, conv: string): seq<Entry> {
    if log == [] then []
    else if log[0].conv == conv then [log[0]] + Of(log[1..], conv)
    else Of(log[1..], conv)
  }

  // Stable insertion by timestamp, and the sort built from it.
  function Insert(e: Entry, sorted: seq<Entry>): seq<Entry> {
    if sorted == [] || e.ts <= sorted[0].ts then [e] + sorted else [sorted[0]] + Insert(e, sorted[1..])
  }

  function SortByTime(es: seq<Entry>): seq<Entry> {
    if es == [] then [] else Insert(es[0], SortByTime(es[1..]))
  }

  function Last(es: seq<Entry>, limit: nat): seq<Entry> {
    if |es| <= limit then es else es[|es| - limit..]
  }

  function History(log: seq<Entry>, conv: string, limit: nat): seq<Entry> {
    Last(SortByTime(Of(log, conv)), limit)
  }

  function Without(es: seq<Entry>, msg: Option<string>): seq<Entry> {
    if es == [] then []
    else if msg.Some? && es[0].msg == msg then Without(es[1..], msg)
    else [es[0]] + Without(es[1..], msg)
  }

  // thread_tail, before rendering: the recent turns, without the message being handled.
  function Tail(log: seq<Entry>, conv: string, turns: int, exclude: Option<string>): seq<Entry> {
    if turns <= 0 then [] else Last(Without(History(log, conv, turns + 1), exclude), turns)
  }

  // Where the id first stands, or the length when it does not.
  function IndexOf(es: seq<Entry>, id: nat): (i: nat)
    ensures i <= |es|
  {
    if es == [] || es[0].id == id then 0 else 1 + IndexOf(es[1..], id)
  }

  function Overflow(es: seq<Entry>, turns: int): seq<Entry> {
    if turns > 0 && |es| > turns then es[..|es| - turns] else []
  }

  // What a roll folds next: the overflow after the watermark, or all of it when the watermark is not there.
  function Unfolded(overflow: seq<Entry>, mark: Option<nat>): seq<Entry> {
    if mark.None? || IndexOf(overflow, mark.value) == |overflow| then overflow
    else overflow[IndexOf(overflow, mark.value) + 1..]
  }

  // The first entries older than the cutoff: what the archive sweep moves out.
  function OldPrefix(log: seq<Entry>, cutoff: int): nat
    ensures OldPrefix(log, cutoff) <= |log|
  {
    if log == [] || log[0].ts >= cutoff then 0 else 1 + OldPrefix(log[1..], cutoff)
  }

  // --- the transcript of one conversation as a state machine ---

  // The shared log, the conversation's watermark, and the history: everything folded into its summary so far.
  datatype State = State(log: seq<Entry>, mark: Option<nat>, folded: seq<Entry>, next: nat)

  datatype Event = Record(from: string, msg: Option<string>, now: int) | Roll(answered: bool) | Archive(cutoff: int)

  function Pending(s: State, conv: string, turns: int): seq<Entry> {
    Unfolded(Overflow(History(s.log, conv, ROLL_LIMIT), turns), s.mark)
  }

  function Fold(s: State, pending: seq<Entry>): State {
    if pending == [] then s
    else s.(mark := Some(pending[|pending| - 1].id), folded := s.folded + pending)
  }

  function Step(s: State, e: Event, conv: string, turns: int): State {
    match e
    case Record(from, msg, now) =>
      s.(log := s.log + [Entry(s.next, from, now, msg)], next := s.next + 1)
    case Roll(answered) =>
      if answered then Fold(s, Pending(s, conv, turns)) else s
    case Archive(cutoff) =>
      s.(log := s.log[OldPrefix(s.log, cutoff)..])
  }

  function Run(s: State, events: seq<Event>, conv: string, turns: int): State
    decreases |events|
  {
    if events == [] then s else Run(Step(s, events[0], conv, turns), events[1..], conv, turns)
  }

  const START := State([], None, [], 0)

  // --- lists ---

  predicate Younger(e: Entry, f: Entry) {
    e.id < f.id
  }

  predicate NotLater(e: Entry, f: Entry) {
    e.ts <= f.ts
  }

  predicate Rising(es: seq<Entry>) {
    forall i, j {:trigger Younger(es[i], es[j])} :: 0 <= i < j < |es| ==> Younger(es[i], es[j])
  }

  predicate Chronological(es: seq<Entry>) {
    forall i, j {:trigger NotLater(es[i], es[j])} :: 0 <= i < j < |es| ==> NotLater(es[i], es[j])
  }

  lemma {:induction false} OfConcat(a: seq<Entry>, b: seq<Entry>, conv: string)
    ensures Of(a + b, conv) == Of(a, conv) + Of(b, conv)
  {
    if a == [] {
      assert a + b == b;
    } else {
      assert (a + b)[1..] == a[1..] + b;
      OfConcat(a[1..], b, conv);
    }
  }

  lemma {:induction false} OfMembers(log: seq<Entry>, conv: string)
    ensures forall e :: e in Of(log, conv) <==> e in log && e.conv == conv
  {
    if log != [] {
      OfMembers(log[1..], conv);
      assert log == [log[0]] + log[1..];
    }
  }

  lemma SliceOrdered(es: seq<Entry>, from: nat, to: nat)
    requires from <= to <= |es|
    ensures Rising(es) ==> Rising(es[from..to])
    ensures Chronological(es) ==> Chronological(es[from..to])
  {
    var part := es[from..to];
    forall i, j | 0 <= i < j < to - from
      ensures Rising(es) ==> Younger(part[i], part[j])
      ensures Chronological(es) ==> NotLater(part[i], part[j])
    {
      assert Rising(es) ==> Younger(es[from + i], es[from + j]);
      assert Chronological(es) ==> NotLater(es[from + i], es[from + j]);
    }
  }

  lemma OrderedCons(e: Entry, es: seq<Entry>)
    requires Rising(es) && Chronological(es)
    requires forall i :: 0 <= i < |es| ==> Younger(e, es[i]) && NotLater(e, es[i])
    ensures Rising([e] + es) && Chronological([e] + es)
  {
    forall i, j | 0 <= i < j < |es| + 1
      ensures Younger(([e] + es)[i], ([e] + es)[j]) && NotLater(([e] + es)[i], ([e] + es)[j])
    {
      assert i > 0 ==> Younger(es[i - 1], es[j - 1]) && NotLater(es[i - 1], es[j - 1]);
    }
  }

  lemma {:induction false} OfKeepsOrder(log: seq<Entry>, conv: string)
    requires Rising(log) && Chronological(log)
    ensures Rising(Of(log, conv)) && Chronological(Of(log, conv))
  {
    if log != [] {
      var rest := Of(log[1..], conv);
      SliceOrdered(log, 1, |log|);
      assert log[1..|log|] == log[1..];
      OfKeepsOrder(log[1..], conv);
      OfMembers(log[1..], conv);
      forall i | 0 <= i < |rest| ensures Younger(log[0], rest[i]) && NotLater(log[0], rest[i]) {
        assert rest[i] in log[1..];
        var j :| 0 <= j < |log[1..]| && log[1..][j] == rest[i];
        assert log[j + 1] == rest[i] && Younger(log[0], log[j + 1]) && NotLater(log[0], log[j + 1]);
      }
      if log[0].conv == conv {
        OrderedCons(log[0], rest);
      }
    }
  }

  lemma {:induction false} SortOfSorted(es: seq<Entry>)
    requires Chronological(es)
    ensures SortByTime(es) == es
  {
    if es != [] {
      SliceOrdered(es, 1, |es|);
      assert es[1..|es|] == es[1..];
      SortOfSorted(es[1..]);
      assert |es| > 1 ==> NotLater(es[0], es[1]);
    }
  }

  // The whole retained history of the conversation.
  function Kept(s: State, conv: string): seq<Entry> {
    Of(s.log, conv)
  }

  predicate Clocked(s: State) {
    && Rising(s.log) && Chronological(s.log)
    && forall i :: 0 <= i < |s.log| ==> s.log[i].id < s.next
  }

  lemma HistoryIsRecent(s: State, conv: string, limit: nat)
    requires Clocked(s)
    ensures History(s.log, conv, limit) == Last(Kept(s, conv), limit)
    ensures Rising(Kept(s, conv))
    ensures forall e :: e in Kept(s, conv) ==> e.id < s.next
  {
    OfKeepsOrder(s.log, conv);
    SortOfSorted(Of(s.log, conv));
    OfMembers(s.log, conv);
  }

  // --- where the watermark stands ---

  // How many entries are not younger than the watermark.
  function Point(es: seq<Entry>, mark: Option<nat>): (n: nat)
    ensures n <= |es|
  {
    if mark.None? || es == [] || es[0].id > mark.value then 0 else 1 + Point(es[1..], mark)
  }

  lemma {:induction false} PointSplits(es: seq<Entry>, mark: nat)
    requires Rising(es)
    ensures forall i :: 0 <= i < |es| ==> (i < Point(es, Some(mark)) <==> es[i].id <= mark)
  {
    if es != [] {
      SliceOrdered(es, 1, |es|);
      assert es[1..|es|] == es[1..];
      PointSplits(es[1..], mark);
      forall i | 1 <= i < |es| ensures i < Point(es, Some(mark)) <==> es[i].id <= mark {
        assert es[1..][i - 1] == es[i] && Younger(es[0], es[i]);
      }
    }
  }

  // A rising list has one such split point.
  lemma PointIs(es: seq<Entry>, mark: nat, n: nat)
    requires Rising(es) && n <= |es|
    requires (n > 0 ==> es[n - 1].id <= mark) && (n < |es| ==> es[n].id > mark)
    ensures Point(es, Some(mark)) == n
  {
    PointSplits(es, mark);
    if n > 0 {
      assert n - 1 < Point(es, Some(mark));
    }
    if n < |es| {
      assert !(n < Point(es, Some(mark)));
    }
  }

  lemma {:induction false} IndexOfIs(es: seq<Entry>, id: nat, i: nat)
    requires i <= |es| && (i < |es| ==> es[i].id == id)
    requires forall j :: 0 <= j < i ==> es[j].id != id
    ensures IndexOf(es, id) == i
  {
    if i > 0 {
      IndexOfIs(es[1..], id, i - 1);
    }
  }

  // --- folds ---

  ghost predicate Folds(s: State) {
    && Rising(s.folded)
    && s.mark == (if s.folded == [] then None else Some(s.folded[|s.folded| - 1].id))
    && (s.mark.Some? ==> s.mark.value < s.next)
  }

  // Everything up to the watermark has scrolled out of the window, and the watermark is the youngest of it.
  predicate Marked(kept: seq<Entry>, mark: Option<nat>, turns: int) {
    Point(kept, mark) > 0 ==>
      Point(kept, mark) <= |kept| - turns && Some(kept[Point(kept, mark) - 1].id) == mark
  }

  ghost predicate Good(s: State, conv: string, turns: int) {
    Clocked(s) && Folds(s) && Marked(Kept(s, conv), s.mark, turns)
  }

  predicate Monotone(s: State, e: Event) {
    e.Record? ==> s.log == [] || s.log[|s.log| - 1].ts <= e.now
  }

  // Where the next fold starts: after the watermark, or where the history read by a roll begins.
  function From(kept: seq<Entry>, mark: Option<nat>, limit: nat): (at: nat)
    ensures at <= |kept| && at >= Point(kept, mark)
  {
    var cut := if |kept| > limit then |kept| - limit else 0;
    if Point(kept, mark) > cut then Point(kept, mark) else cut
  }

  function Fresh(kept: seq<Entry>, from: nat, turns: nat): (unfolded: seq<Entry>)
    ensures unfolded == [] <==> from >= |kept| - turns
  {
    if from < |kept| - turns then kept[from..|kept| - turns] else []
  }

  // A roll folds exactly the overflow younger than the watermark, oldest first.
  lemma PendingIsFresh(s: State, conv: string, turns: int)
    requires Good(s, conv, turns) && turns > 0
    ensures Pending(s, conv, turns) == Fresh(Kept(s, conv), From(Kept(s, conv), s.mark, ROLL_LIMIT), turns)
  {
    HistoryIsRecent(s, conv, ROLL_LIMIT);
    RecentUnfolded(Kept(s, conv), s.mark, turns, ROLL_LIMIT);
  }

  lemma RecentUnfolded(kept: seq<Entry>, mark: Option<nat>, turns: nat, limit: nat)
    requires Rising(kept) && Marked(kept, mark, turns) && turns > 0
    ensures Unfolded(Overflow(Last(kept, limit), turns), mark) == Fresh(kept, From(kept, mark, limit), turns)
  {
    var cut := if |kept| > limit then |kept| - limit else 0;
    RecentOverflow(kept, turns, limit);
    if cut < |kept| - turns {
      OverflowUnfolded(kept, cut, |kept| - turns, mark);
    }
  }

  lemma RecentOverflow(kept: seq<Entry>, turns: nat, limit: nat)
    requires turns > 0
    ensures var cut := if |kept| > limit then |kept| - limit else 0;
            Overflow(Last(kept, limit), turns) == if cut < |kept| - turns then kept[cut..|kept| - turns] else []
  {
  }

  lemma OverflowUnfolded(kept: seq<Entry>, cut: nat, end: nat, mark: Option<nat>)
    requires Rising(kept) && cut < end <= |kept|
    requires Point(kept, mark) > 0 ==> Point(kept, mark) <= end && Some(kept[Point(kept, mark) - 1].id) == mark
    ensures Unfolded(kept[cut..end], mark)
            == if Point(kept, mark) > cut then kept[Point(kept, mark)..end] else kept[cut..end]
  {
    var overflow := kept[cut..end];
    var p := Point(kept, mark);
    if mark.Some? {
      PointSplits(kept, mark.value);
      forall i | 0 <= i < |overflow| && p > 0 && cut + i != p - 1 ensures overflow[i].id != mark.value {
        assert overflow[i] == kept[cut + i];
        assert Younger(kept[cut + i], kept[p - 1]) || Younger(kept[p - 1], kept[cut + i]);
      }
      assert forall i :: 0 <= i < |overflow| ==> overflow[i] == kept[cut + i];
      IndexOfIs(overflow, mark.value, if p > cut then p - 1 - cut else |overflow|);
    }
  }

  lemma KeptGrowsByOne(log: seq<Entry>, entry: Entry, conv: string)
    ensures Of(log + [entry], conv) == Of(log, conv) + if entry.conv == conv then [entry] else []
  {
    OfConcat(log, [entry], conv);
    assert Of([entry], conv) == if entry.conv == conv then [entry] else [];
  }

  lemma PointAfterRecord(kept: seq<Entry>, entry: Entry, mark: nat)
    requires Rising(kept + [entry]) && entry.id > mark
    ensures Point(kept + [entry], Some(mark)) == Point(kept, Some(mark))
  {
    var after := kept + [entry];
    var p := Point(kept, Some(mark));
    SliceOrdered(after, 0, |kept|);
    assert after[0..|kept|] == kept;
    PointSplits(kept, mark);
    assert p > 0 ==> after[p - 1] == kept[p - 1];
    assert p < |kept| ==> after[p] == kept[p];
    PointIs(after, mark, p);
  }

  lemma RecordClocked(s: State, e: Event, conv: string, turns: int)
    requires Clocked(s) && e.Record? && Monotone(s, e)
    ensures Clocked(Step(s, e, conv, turns))
  {
    var k := |s.log|;
    var log := Step(s, e, conv, turns).log;
    forall i, j | 0 <= i < j < |log| ensures Younger(log[i], log[j]) && NotLater(log[i], log[j]) {
      if j < k {
        assert Younger(s.log[i], s.log[j]) && NotLater(s.log[i], s.log[j]);
      } else if i < k - 1 {
        assert NotLater(s.log[i], s.log[k - 1]);
      }
    }
  }

  lemma RecordGood(s: State, e: Event, conv: string, turns: int)
    requires Good(s, conv, turns) && e.Record? && Monotone(s, e)
    ensures Good(Step(s, e, conv, turns), conv, turns)
    ensures Kept(s, conv) <= Kept(Step(s, e, conv, turns), conv)
    ensures Point(Kept(Step(s, e, conv, turns), conv), s.mark) == Point(Kept(s, conv), s.mark)
  {
    var entry := Entry(s.next, e.from, e.now, e.msg);
    var t := Step(s, e, conv, turns);
    RecordClocked(s, e, conv, turns);
    KeptGrowsByOne(s.log, entry, conv);
    OfKeepsOrder(t.log, conv);
    if e.from != conv {
      assert Kept(t, conv) == Kept(s, conv);
    } else if s.mark.Some? {
      PointAfterRecord(Kept(s, conv), entry, s.mark.value);
    }
  }

  lemma RollGood(s: State, e: Event, conv: string, turns: int)
    requires Good(s, conv, turns) && e.Roll? && turns > 0
    ensures Good(Step(s, e, conv, turns), conv, turns)
    ensures var t := Step(s, e, conv, turns);
            t != s ==> Point(Kept(s, conv), t.mark) == |Kept(s, conv)| - turns
  {
    PendingIsFresh(s, conv, turns);
    if Step(s, e, conv, turns) != s {
      var kept := Kept(s, conv);
      HistoryIsRecent(s, conv, ROLL_LIMIT);
      YoungerThanMark(kept, s.mark, From(kept, s.mark, ROLL_LIMIT));
      FoldKeepsFolds(s, kept, From(kept, s.mark, ROLL_LIMIT), |kept| - turns);
      FoldAdvances(kept, |kept| - turns);
    }
  }

  lemma YoungerThanMark(kept: seq<Entry>, mark: Option<nat>, at: nat)
    requires Rising(kept) && Point(kept, mark) <= at < |kept|
    ensures mark.Some? ==> kept[at].id > mark.value
  {
    if mark.Some? {
      PointSplits(kept, mark.value);
    }
  }

  lemma FoldKeepsFolds(s: State, kept: seq<Entry>, at: nat, end: nat)
    requires Folds(s) && Rising(kept) && at < end <= |kept|
    requires s.mark.Some? ==> kept[at].id > s.mark.value
    requires kept[end - 1].id < s.next
    ensures var t := Fold(s, kept[at..end]);
            Folds(t) && t.mark == Some(kept[end - 1].id) && t.log == s.log && t.next == s.next
  {
    var pending := kept[at..end];
    SliceOrdered(kept, at, end);
    assert pending[0] == kept[at] && pending[|pending| - 1] == kept[end - 1];
    RisingConcat(s.folded, pending);
  }

  // The new watermark is the youngest overflow entry.
  lemma FoldAdvances(kept: seq<Entry>, n: nat)
    requires Rising(kept) && 0 < n <= |kept|
    ensures Point(kept, Some(kept[n - 1].id)) == n
  {
    assert n < |kept| ==> Younger(kept[n - 1], kept[n]);
    PointIs(kept, kept[n - 1].id, n);
  }

  lemma RisingConcat(a: seq<Entry>, b: seq<Entry>)
    requires Rising(a) && Rising(b)
    requires a != [] && b != [] ==> a[|a| - 1].id < b[0].id
    ensures Rising(a + b)
  {
    forall i, j | 0 <= i < j < |a + b| ensures Younger((a + b)[i], (a + b)[j]) {
      if j < |a| {
        assert Younger(a[i], a[j]);
      } else if i >= |a| {
        assert Younger(b[i - |a|], b[j - |a|]);
      } else {
        assert i < |a| - 1 ==> Younger(a[i], a[|a| - 1]);
        assert j > |a| ==> Younger(b[0], b[j - |a|]);
      }
    }
  }

  lemma PointAfterDrop(kept: seq<Entry>, k: nat, mark: nat)
    requires k <= |kept| && Rising(kept) && Rising(kept[k..])
    ensures Point(kept[k..], Some(mark)) == if Point(kept, Some(mark)) > k then Point(kept, Some(mark)) - k else 0
  {
    var p := Point(kept, Some(mark));
    PointSplits(kept, mark);
    PointIs(kept[k..], mark, if p > k then p - k else 0);
  }

  // What the archive leaves of one conversation is a suffix of it.
  lemma DroppedSuffix(log: seq<Entry>, n: nat, conv: string) returns (k: nat)
    requires n <= |log|
    ensures k <= |Of(log, conv)| && Of(log[n..], conv) == Of(log, conv)[k..]
  {
    k := |Of(log[..n], conv)|;
    assert log == log[..n] + log[n..];
    OfConcat(log[..n], log[n..], conv);
  }

  lemma ArchiveGood(s: State, e: Event, conv: string, turns: int) returns (k: nat)
    requires Good(s, conv, turns) && e.Archive?
    ensures Good(Step(s, e, conv, turns), conv, turns)
    ensures k <= |Kept(s, conv)| && Kept(Step(s, e, conv, turns), conv) == Kept(s, conv)[k..]
    ensures Point(Kept(s, conv)[k..], s.mark)
            == if Point(Kept(s, conv), s.mark) > k then Point(Kept(s, conv), s.mark) - k else 0
  {
    var n := OldPrefix(s.log, e.cutoff);
    k := DroppedSuffix(s.log, n, conv);
    DropClocked(s, n);
    OfKeepsOrder(s.log, conv);
    MarkedAfterDrop(Kept(s, conv), k, s.mark, turns);
  }

  lemma MarkedAfterDrop(kept: seq<Entry>, k: nat, mark: Option<nat>, turns: int)
    requires k <= |kept| && Rising(kept) && Marked(kept, mark, turns)
    ensures Point(kept[k..], mark) == if Point(kept, mark) > k then Point(kept, mark) - k else 0
    ensures Marked(kept[k..], mark, turns)
  {
    SliceOrdered(kept, k, |kept|);
    assert kept[k..|kept|] == kept[k..];
    if mark.Some? {
      PointAfterDrop(kept, k, mark.value);
    }
  }

  lemma DropClocked(s: State, n: nat)
    requires Clocked(s) && n <= |s.log|
    ensures Clocked(s.(log := s.log[n..]))
  {
    SliceOrdered(s.log, n, |s.log|);
    assert s.log[n..|s.log|] == s.log[n..];
  }

  lemma StepGood(s: State, e: Event, conv: string, turns: int)
    requires Good(s, conv, turns) && turns > 0 && Monotone(s, e)
    ensures Good(Step(s, e, conv, turns), conv, turns)
  {
    match e
    case Record(_, _, _) => RecordGood(s, e, conv, turns);
    case Roll(_) => RollGood(s, e, conv, turns);
    case Archive(_) => var _ := ArchiveGood(s, e, conv, turns);
  }

  ghost predicate MonotoneRun(s: State, events: seq<Event>, conv: string, turns: int)
    decreases |events|
  {
    events == [] || (Monotone(s, events[0]) && MonotoneRun(Step(s, events[0], conv, turns), events[1..], conv, turns))
  }

  lemma {:induction false} RunGood(s: State, events: seq<Event>, conv: string, turns: int)
    requires Good(s, conv, turns) && turns > 0 && MonotoneRun(s, events, conv, turns)
    ensures Good(Run(s, events, conv, turns), conv, turns)
    decreases |events|
  {
    if events != [] {
      StepGood(s, events[0], conv, turns);
      RunGood(Step(s, events[0], conv, turns), events[1..], conv, turns);
    }
  }

  // Over any interleaving of messages, rolls that succeed or fail, and archiving: no turn is folded twice, folds
  // happen in log order, and none of the newest `turns` turns is folded.
  lemma FoldedOnceInOrder(events: seq<Event>, conv: string, turns: int)
    requires turns > 0 && MonotoneRun(START, events, conv, turns)
    ensures var s := Run(START, events, conv, turns);
            && Rising(s.folded)
            && (forall e :: e in Last(Kept(s, conv), turns) ==> e !in s.folded)
  {
    RunGood(START, events, conv, turns);
    NewestUnfolded(Run(START, events, conv, turns), conv, turns);
  }

  lemma NewestUnfolded(s: State, conv: string, turns: int)
    requires Good(s, conv, turns) && turns > 0
    ensures forall e :: e in Last(Kept(s, conv), turns) ==> e !in s.folded
  {
    OfKeepsOrder(s.log, conv);
    RecentIsUnfolded(s, Kept(s, conv), turns);
  }

  lemma FoldedAreOld(s: State)
    requires Folds(s)
    ensures s.mark.Some? ==> forall e :: e in s.folded ==> e.id <= s.mark.value
    ensures s.mark.None? ==> s.folded == []
  {
    if s.mark.Some? {
      forall i | 0 <= i < |s.folded| ensures s.folded[i].id <= s.mark.value {
        assert i < |s.folded| - 1 ==> Younger(s.folded[i], s.folded[|s.folded| - 1]);
      }
    }
  }

  lemma RecentIsUnfolded(s: State, kept: seq<Entry>, turns: nat)
    requires Folds(s) && Rising(kept) && Marked(kept, s.mark, turns)
    ensures forall e :: e in Last(kept, turns) ==> e !in s.folded
  {
    FoldedAreOld(s);
    if s.mark.Some? {
      PointSplits(kept, s.mark.value);
      var recent := Last(kept, turns);
      forall j | 0 <= j < |recent| ensures recent[j] !in s.folded {
        assert recent[j] == kept[|kept| - |recent| + j];
      }
    }
  }

  // --- coverage ---

  // Nothing that is still in the log was skipped by the watermark.
  predicate Covers(kept: seq<Entry>, mark: Option<nat>, folded: seq<Entry>) {
    forall i :: 0 <= i < Point(kept, mark) ==> kept[i] in folded
  }

  ghost predicate Covered(s: State, conv: string) {
    Covers(Kept(s, conv), s.mark, s.folded)
  }

  lemma FoldReaches(kept: seq<Entry>, at: nat, end: nat, folded: seq<Entry>)
    requires at <= end <= |kept|
    requires forall i :: 0 <= i < at ==> kept[i] in folded
    ensures forall i :: 0 <= i < end ==> kept[i] in folded + kept[at..end]
  {
    forall i | 0 <= i < end ensures kept[i] in folded + kept[at..end] {
      if i >= at {
        assert kept[i] == kept[at..end][i - at];
      }
    }
  }

  lemma FoldCovers(kept: seq<Entry>, mark: Option<nat>, folded: seq<Entry>, end: nat)
    requires Rising(kept) && Covers(kept, mark, folded) && Point(kept, mark) < end <= |kept|
    ensures var pending := kept[Point(kept, mark)..end];
            && Point(kept, Some(pending[|pending| - 1].id)) == end
            && Covers(kept, Some(pending[|pending| - 1].id), folded + pending)
  {
    FoldAdvances(kept, end);
    FoldReaches(kept, Point(kept, mark), end, folded);
    assert kept[Point(kept, mark)..end][end - Point(kept, mark) - 1] == kept[end - 1];
  }

  lemma DropCovers(kept: seq<Entry>, k: nat, mark: Option<nat>, folded: seq<Entry>)
    requires k <= |kept| && Covers(kept, mark, folded)
    requires Point(kept[k..], mark) == if Point(kept, mark) > k then Point(kept, mark) - k else 0
    ensures Covers(kept[k..], mark, folded)
  {
    forall i | 0 <= i < Point(kept[k..], mark) ensures kept[k..][i] in folded {
      assert kept[k..][i] == kept[k + i];
    }
  }

  lemma FoldFreshCovers(s: State, kept: seq<Entry>, turns: nat)
    requires Rising(kept) && Covers(kept, s.mark, s.folded)
    ensures var t := Fold(s, Fresh(kept, Point(kept, s.mark), turns)); Covers(kept, t.mark, t.folded)
  {
    var at := Point(kept, s.mark);
    var end := |kept| - turns;
    if at < end {
      FoldCovers(kept, s.mark, s.folded, end);
      assert Fold(s, kept[at..end]).folded == s.folded + kept[at..end];
    }
  }

  lemma RollCovered(s: State, e: Event, conv: string, turns: int)
    requires Good(s, conv, turns) && turns > 0 && e.Roll? && Covered(s, conv)
    requires |Kept(s, conv)| <= ROLL_LIMIT
    ensures Covered(Step(s, e, conv, turns), conv)
  {
    if e.answered {
      PendingIsFresh(s, conv, turns);
      OfKeepsOrder(s.log, conv);
      assert From(Kept(s, conv), s.mark, ROLL_LIMIT) == Point(Kept(s, conv), s.mark);
      FoldFreshCovers(s, Kept(s, conv), turns);
      assert Step(s, e, conv, turns).log == s.log;
    }
  }

  lemma SuccessReachesTheWindow(s: State, e: Event, conv: string, turns: int)
    requires Good(s, conv, turns) && turns > 0 && Succeeds(s, e, conv, turns)
    requires |Kept(s, conv)| <= ROLL_LIMIT
    ensures Point(Kept(s, conv), Step(s, e, conv, turns).mark) >= |Kept(s, conv)| - turns
  {
    PendingIsFresh(s, conv, turns);
    RollGood(s, e, conv, turns);
  }

  lemma StepCovered(s: State, e: Event, conv: string, turns: int)
    requires Good(s, conv, turns) && turns > 0 && Monotone(s, e) && Covered(s, conv)
    requires |Kept(s, conv)| <= ROLL_LIMIT
    ensures Covered(Step(s, e, conv, turns), conv)
  {
    match e
    case Record(_, _, _) => RecordGood(s, e, conv, turns);
    case Roll(_) => RollCovered(s, e, conv, turns);
    case Archive(_) =>
      var k := ArchiveGood(s, e, conv, turns);
      DropCovers(Kept(s, conv), k, s.mark, s.folded);
  }

  // The conversation never outgrows what one roll reads.
  ghost predicate ReadInFull(s: State, events: seq<Event>, conv: string, turns: int)
    decreases |events|
  {
    && |Kept(s, conv)| <= ROLL_LIMIT
    && (events == [] || ReadInFull(Step(s, events[0], conv, turns), events[1..], conv, turns))
  }

  lemma {:induction false} RunCovered(s: State, events: seq<Event>, conv: string, turns: int)
    requires Good(s, conv, turns) && turns > 0 && Covered(s, conv)
    requires MonotoneRun(s, events, conv, turns) && ReadInFull(s, events, conv, turns)
    ensures Good(Run(s, events, conv, turns), conv, turns) && Covered(Run(s, events, conv, turns), conv)
    ensures |Kept(Run(s, events, conv, turns), conv)| <= ROLL_LIMIT
    decreases |events|
  {
    if events != [] {
      StepGood(s, events[0], conv, turns);
      StepCovered(s, events[0], conv, turns);
      RunCovered(Step(s, events[0], conv, turns), events[1..], conv, turns);
    }
  }

  // A roll that had nothing to do, or whose summary came back.
  predicate Succeeds(s: State, e: Event, conv: string, turns: int) {
    e.Roll? && (e.answered || Pending(s, conv, turns) == [])
  }

  // After any run that ends with a successful roll, every turn that is still in the log is in the summary or in the
  // verbatim tail, except the message being handled.
  lemma NothingFallsBetween(
    events: seq<Event>, e: Event, conv: string, turns: int, exclude: Option<string>, x: Entry
  )
    requires turns > 0 && MonotoneRun(START, events, conv, turns) && ReadInFull(START, events, conv, turns)
    requires Succeeds(Run(START, events, conv, turns), e, conv, turns)
    requires x in Kept(Run(START, events, conv, turns), conv) && !(exclude.Some? && x.msg == exclude)
    ensures var t := Step(Run(START, events, conv, turns), e, conv, turns);
            x in t.folded || x in Tail(t.log, conv, turns, exclude)
  {
    var s := Run(START, events, conv, turns);
    RunCovered(START, events, conv, turns);
    RollCovered(s, e, conv, turns);
    SuccessReachesTheWindow(s, e, conv, turns);
    var kept := Kept(s, conv);
    var i :| 0 <= i < |kept| && kept[i] == x;
    if i >= |kept| - turns {
      InTheTail(s, conv, turns, exclude, i);
    }
  }

  // The verbatim tail holds at most `turns` of the newest turns, never the message being handled.
  lemma TailIsRecent(s: State, conv: string, turns: int, exclude: Option<string>)
    requires Clocked(s)
    ensures |Tail(s.log, conv, turns, exclude)| <= if turns > 0 then turns else 0
    ensures turns > 0 ==>
              forall x :: x in Tail(s.log, conv, turns, exclude) ==>
                x in Last(Kept(s, conv), turns + 1) && !(exclude.Some? && x.msg == exclude)
  {
    if turns > 0 {
      HistoryIsRecent(s, conv, turns + 1);
      WithoutMembers(Last(Kept(s, conv), turns + 1), exclude);
    }
  }

  lemma {:induction false} WithoutMembers(es: seq<Entry>, exclude: Option<string>)
    ensures forall x :: x in Without(es, exclude) <==> x in es && !(exclude.Some? && x.msg == exclude)
  {
    if es != [] {
      WithoutMembers(es[1..], exclude);
      assert es == [es[0]] + es[1..];
    }
  }

  lemma InTheTail(s: State, conv: string, turns: int, exclude: Option<string>, i: nat)
    requires Clocked(s) && turns > 0 && i < |Kept(s, conv)| && i >= |Kept(s, conv)| - turns
    requires !(exclude.Some? && Kept(s, conv)[i].msg == exclude)
    ensures Kept(s, conv)[i] in Tail(s.log, conv, turns, exclude)
  {
    HistoryIsRecent(s, conv, turns + 1);
    RecentInTail(Kept(s, conv), turns, exclude, i);
  }

  lemma RecentInTail(kept: seq<Entry>, turns: nat, exclude: Option<string>, i: nat)
    requires i < |kept| && i >= |kept| - turns && !(exclude.Some? && kept[i].msg == exclude)
    ensures kept[i] in Last(Without(Last(kept, turns + 1), exclude), turns)
  {
    var recent := Last(kept, turns + 1);
    assert recent[i - (|kept| - |recent|)] == kept[i];
    TailKeeps(recent, turns, exclude, kept[i], i - (|kept| - |recent|));
  }

  // Dropping the handled message from the last turns + 1 leaves each of the last turns in the tail.
  lemma {:induction false} TailKeeps(es: seq<Entry>, turns: nat, exclude: Option<string>, x: Entry, i: nat)
    requires |es| <= turns + 1 && i < |es| && es[i] == x && i >= |es| - turns
    requires !(exclude.Some? && x.msg == exclude)
    ensures x in Last(Without(es, exclude), turns)
  {
    WithoutKeeps(es, exclude, x);
    WithoutShrinks(es, exclude);
    if |Without(es, exclude)| == turns + 1 {
      assert Without(es, exclude) == es;
      assert es[1..][i - 1] == x;
    }
  }

  lemma {:induction false} WithoutKeeps(es: seq<Entry>, exclude: Option<string>, x: Entry)
    requires x in es && !(exclude.Some? && x.msg == exclude)
    ensures x in Without(es, exclude)
  {
    if es[0] != x {
      WithoutKeeps(es[1..], exclude, x);
    }
  }

  lemma {:induction false} WithoutShrinks(es: seq<Entry>, exclude: Option<string>)
    ensures |Without(es, exclude)| <= |es|
    ensures |Without(es, exclude)| == |es| ==> Without(es, exclude) == es
  {
    if es != [] {
      WithoutShrinks(es[1..], exclude);
    }
  }

  // --- no archiving: the folds are the overflow ---

  lemma {:induction false} FoldsAreAPrefix(s: State, events: seq<Event>, conv: string, turns: int)
    requires Good(s, conv, turns) && turns > 0 && MonotoneRun(s, events, conv, turns)
    requires s.folded <= Kept(s, conv)
    requires forall i :: 0 <= i < |events| ==> !events[i].Archive?
    requires |Kept(Run(s, events, conv, turns), conv)| <= ROLL_LIMIT
    ensures Run(s, events, conv, turns).folded <= Kept(Run(s, events, conv, turns), conv)
    ensures |Kept(s, conv)| <= |Kept(Run(s, events, conv, turns), conv)|
    decreases |events|
  {
    if events != [] {
      var e := events[0];
      var t := Step(s, e, conv, turns);
      StepGood(s, e, conv, turns);
      if e.Record? {
        RecordGood(s, e, conv, turns);
        FoldsAreAPrefix(t, events[1..], conv, turns);
      } else {
        KeptGrows(t, events[1..], conv, turns);
        RollExtendsPrefix(s, e, conv, turns);
        FoldsAreAPrefix(t, events[1..], conv, turns);
      }
    }
  }

  lemma {:induction false} KeptGrows(s: State, events: seq<Event>, conv: string, turns: int)
    requires forall i :: 0 <= i < |events| ==> !events[i].Archive?
    ensures |Kept(s, conv)| <= |Kept(Run(s, events, conv, turns), conv)|
    decreases |events|
  {
    if events != [] {
      if events[0].Record? {
        OfConcat(s.log, [Entry(s.next, events[0].from, events[0].now, events[0].msg)], conv);
      }
      KeptGrows(Step(s, events[0], conv, turns), events[1..], conv, turns);
    }
  }

  lemma RollExtendsPrefix(s: State, e: Event, conv: string, turns: int)
    requires Good(s, conv, turns) && turns > 0 && e.Roll?
    requires s.folded <= Kept(s, conv) && |Kept(s, conv)| <= ROLL_LIMIT
    ensures var t := Step(s, e, conv, turns);
            && t.folded <= Kept(t, conv)
            && (Succeeds(s, e, conv, turns) ==> t.folded == Overflow(Kept(t, conv), turns))
  {
    PendingIsFresh(s, conv, turns);
    PrefixPoint(s, Kept(s, conv), conv);
    FoldExtendsPrefix(s, Kept(s, conv), turns);
  }

  lemma FoldExtendsPrefix(s: State, kept: seq<Entry>, turns: nat)
    requires turns > 0 && s.folded <= kept && (|s.folded| > 0 ==> |s.folded| <= |kept| - turns)
    ensures Fold(s, Fresh(kept, |s.folded|, turns)).folded == Overflow(kept, turns)
  {
    var k := |s.folded|;
    if k < |kept| - turns {
      assert kept[..k] + kept[k..|kept| - turns] == kept[..|kept| - turns];
    }
  }

  lemma PrefixPoint(s: State, kept: seq<Entry>, conv: string)
    requires Clocked(s) && Folds(s) && kept == Kept(s, conv) && s.folded <= kept
    ensures Point(kept, s.mark) == |s.folded|
  {
    var k := |s.folded|;
    OfKeepsOrder(s.log, conv);
    if k > 0 {
      assert kept[k - 1] == s.folded[k - 1];
      assert k < |kept| ==> Younger(kept[k - 1], kept[k]);
      PointIs(kept, s.mark.value, k);
    }
  }

  // Without archiving, after a successful roll the folds, one after another, are exactly the overflow.
  lemma FoldsAreTheOverflow(events: seq<Event>, conv: string, turns: int, e: Event)
    requires turns > 0 && MonotoneRun(START, events, conv, turns)
    requires forall i :: 0 <= i < |events| ==> !events[i].Archive?
    requires |Kept(Run(START, events, conv, turns), conv)| <= ROLL_LIMIT
    requires Succeeds(Run(START, events, conv, turns), e, conv, turns)
    ensures var t := Step(Run(START, events, conv, turns), e, conv, turns);
            t.folded == Overflow(Kept(t, conv), turns)
  {
    RunGood(START, events, conv, turns);
    FoldsAreAPrefix(START, events, conv, turns);
    RollExtendsPrefix(Run(START, events, conv, turns), e, conv, turns);
  }

  // --- where the guarantees end ---

  lemma RunFirst(s: State, e: Event, rest: seq<Event>, conv: string, turns: int)
    ensures Run(s, [e] + rest, conv, turns) == Run(Step(s, e, conv, turns), rest, conv, turns)
  {
    assert ([e] + rest)[0] == e && ([e] + rest)[1..] == rest;
  }

  // Three messages and one roll with a window of one turn.
  lemma ThreeThenRoll(t0: int, t1: int, t2: int, log: seq<Entry>, sorted: seq<Entry>)
    requires log == [Entry(0, "c", t0, None), Entry(1, "c", t1, None), Entry(2, "c", t2, None)]
    requires SortByTime(log) == sorted && |sorted| == 3
    ensures Run(START, [Record("c", None, t0), Record("c", None, t1), Record("c", None, t2), Roll(true)], "c", 1)
            == State(log, Some(sorted[1].id), sorted[..2], 3)
  {
    var a, b, d := Record("c", None, t0), Record("c", None, t1), Record("c", None, t2);
    var r := Roll(true);
    var one := State(log[..1], None, [], 1);
    var two := State(log[..2], None, [], 2);
    var three := State(log, None, [], 3);
    assert Step(START, a, "c", 1) == one && Step(one, b, "c", 1) == two && Step(two, d, "c", 1) == three;
    assert [a, b, d, r] == [a] + [b, d, r] && [b, d, r] == [b] + [d, r] && [d, r] == [d] + [r] && [r] == [r] + [];
    RunFirst(START, a, [b, d, r], "c", 1);
    RunFirst(one, b, [d, r], "c", 1);
    RunFirst(two, d, [r], "c", 1);
    RunFirst(three, r, [], "c", 1);
    AllOfOne(log);
    assert Pending(three, "c", 1) == sorted[..2];
  }

  lemma {:induction false} AllOfOne(log: seq<Entry>)
    requires forall i :: 0 <= i < |log| ==> log[i].conv == "c"
    ensures Of(log, "c") == log
  {
    if log != [] {
      AllOfOne(log[1..]);
    }
  }

  // What the archive sweep moves: the entries before the first one that is not older than the cutoff.
  lemma {:induction false} OldPrefixExactly(log: seq<Entry>, cutoff: int)
    ensures var n := OldPrefix(log, cutoff);
            && (forall i :: 0 <= i < n ==> log[i].ts < cutoff)
            && (n < |log| ==> log[n].ts >= cutoff)
  {
    if log != [] && log[0].ts < cutoff {
      OldPrefixExactly(log[1..], cutoff);
    }
  }

  // Exactly when a roll refolds after the window was changed: something has scrolled out of the new window, and the
  // watermark stands inside it.
  lemma RefoldsExactly(events: seq<Event>, conv: string, turns: int, window: int)
    requires turns > 0 && window > 0
    requires MonotoneRun(START, events, conv, turns) && ReadInFull(START, events, conv, turns)
    ensures var s := Run(START, events, conv, turns);
            var kept := Kept(s, conv);
            (exists e :: e in Pending(s, conv, window) && e in s.folded)
            <==> 0 < |kept| - window < Point(kept, s.mark)
  {
    RunCovered(START, events, conv, turns);
    StateRefoldsExactly(Run(START, events, conv, turns), conv, turns, window);
  }

  lemma StateRefoldsExactly(s: State, conv: string, turns: int, window: int)
    requires Good(s, conv, turns) && Covered(s, conv) && |Kept(s, conv)| <= ROLL_LIMIT && window > 0
    ensures (exists e :: e in Pending(s, conv, window) && e in s.folded)
            <==> 0 < |Kept(s, conv)| - window < Point(Kept(s, conv), s.mark)
  {
    var kept := Kept(s, conv);
    HistoryIsRecent(s, conv, ROLL_LIMIT);
    if 0 < |kept| - window < Point(kept, s.mark) {
      MarkInWindow(kept, s.mark, |kept| - window);
      FirstIsRefolded(s, kept, Pending(s, conv, window));
    } else if |kept| - window > 0 {
      PendingIsFresh(s, conv, window);
      FreshIsUnfolded(s, kept, window);
    }
  }

  lemma FirstIsRefolded(s: State, kept: seq<Entry>, pending: seq<Entry>)
    requires Covers(kept, s.mark, s.folded) && 0 < |pending| <= Point(kept, s.mark) && pending <= kept
    ensures exists e :: e in pending && e in s.folded
  {
    assert kept[0] in s.folded && pending[0] == kept[0];
  }

  lemma MarkInWindow(kept: seq<Entry>, mark: Option<nat>, n: nat)
    requires Rising(kept) && 0 < n < Point(kept, mark) && Some(kept[Point(kept, mark) - 1].id) == mark
    ensures Unfolded(kept[..n], mark) == kept[..n]
  {
    var p := Point(kept, mark);
    forall j | 0 <= j < n ensures kept[..n][j].id != mark.value {
      assert j < p - 1 ==> Younger(kept[j], kept[p - 1]);
    }
    IndexOfIs(kept[..n], mark.value, n);
  }

  lemma FreshIsUnfolded(s: State, kept: seq<Entry>, window: nat)
    requires Folds(s) && Rising(kept)
    ensures forall e :: e in Fresh(kept, From(kept, s.mark, ROLL_LIMIT), window) ==> e !in s.folded
  {
    var at := From(kept, s.mark, ROLL_LIMIT);
    FoldedAreOld(s);
    if s.mark.Some? {
      PointSplits(kept, s.mark.value);
      forall i | at <= i < |kept| - window ensures kept[i] !in s.folded {
        assert kept[i].id > s.mark.value;
      }
    }
  }

  // Raising the window refolds: the watermark leaves the overflow, and all of the overflow is fresh again.
  lemma RaisingTheWindowRefolds()
    ensures var s := Run(START, [Record("c", None, 1), Record("c", None, 2), Record("c", None, 3), Roll(true)], "c", 1);
            exists e :: e in s.folded && e in Pending(s, "c", 2)
  {
    var a, b, d := Entry(0, "c", 1, None), Entry(1, "c", 2, None), Entry(2, "c", 3, None);
    SortOfSorted([a, b, d]);
    ThreeThenRoll(1, 2, 3, [a, b, d], [a, b, d]);
    AllOfOne([a, b, d]);
    var overflow := Overflow([a, b, d], 2);
    assert overflow == [a];
    IndexOfIs(overflow, 1, 1);
    var s := State([a, b, d], Some(1), [a, b], 3);
    assert [a, b, d][..2] == [a, b];
    assert Pending(s, "c", 2) == [a];
    assert a in s.folded && a in Pending(s, "c", 2);
  }

  // A clock that steps back refolds too: the archive sweep takes the watermarked turn and leaves an older one.
  lemma SteppingBackRefolds()
    ensures var s := Run(START, [Record("c", None, 5), Record("c", None, 9), Record("c", None, 1), Roll(true)], "c", 1);
            exists e :: e in s.folded && e in Pending(Step(s, Archive(6), "c", 1), "c", 1)
  {
    var a, b, d := Entry(0, "c", 5, None), Entry(1, "c", 9, None), Entry(2, "c", 1, None);
    assert SortByTime([a, b, d]) == [d, a, b] by {
      assert [a, b, d][1..] == [b, d] && [b, d][1..] == [d];
      assert SortByTime([d]) == [d];
      assert [d][1..] == [];
      assert Insert(b, [d]) == [d, b];
      assert [d, b][1..] == [b];
      assert Insert(a, [d, b]) == [d, a, b];
    }
    ThreeThenRoll(5, 9, 1, [a, b, d], [d, a, b]);
    var s := State([a, b, d], Some(0), [d, a], 3);
    assert [d, a, b][..2] == [d, a];
    assert OldPrefix([a, b, d], 6) == 1;
    assert [a, b, d][1..] == [b, d];
    var t := Step(s, Archive(6), "c", 1);
    AllOfOne([b, d]);
    assert [b, d][1..] == [d] && [d][1..] == [];
    assert SortByTime([d]) == [d];
    assert SortByTime([b, d]) == [d, b];
    assert Overflow([d, b], 1) == [d];
    IndexOfIs([d], 0, 1);
    assert Pending(t, "c", 1) == [d];
    assert d in s.folded && d in Pending(t, "c", 1);
  }

  // --- the store ---

  // The call came back with a summary that is not blank.
  predicate Usable(answer: Option<string>) {
    answer.Some? && Strip(answer.value) != ""
  }

  function SummaryOf(summaries: map<string, string>, conv: string): string {
    if conv in summaries then summaries[conv] else ""
  }

  lemma UnfoldedFrom(overflow: seq<Entry>, mark: Option<nat>, start: nat)
    requires start == if mark.Some? && IndexOf(overflow, mark.value) < |overflow|
                      then IndexOf(overflow, mark.value) + 1 else 0
    ensures start <= |overflow| && overflow[start..] == Unfolded(overflow, mark)
  {
  }

  class Transcript {
    var log: seq<Entry>
    var archive: seq<Entry>
    var marks: map<string, nat>
    var summaries: map<string, string>
    var next: nat
    ghost var folded: map<string, seq<Entry>>

    // One conversation of the shared transcript.
    ghost function View(conv: string): State
      reads this
    {
      State(log, if conv in marks then Some(marks[conv]) else None,
            if conv in folded then folded[conv] else [], next)
    }

    constructor ()
      ensures forall c: string :: View(c) == START
      ensures archive == []
    {
      log, archive, marks, summaries, next, folded := [], [], map[], map[], 0, map[];
    }

    method RecordMessage(conv: string, msg: Option<string>, now: int) returns (entry: Entry)
      modifies this
      ensures entry == Entry(old(next), conv, now, msg)
      ensures forall c: string, turns: int :: View(c) == Step(old(View(c)), Record(conv, msg, now), c, turns)
      ensures archive == old(archive) && summaries == old(summaries)
    {
      entry := Entry(next, conv, now, msg);
      log := log + [entry];
      next := next + 1;
    }

    // `answer` is what the summarizer replied, or nothing when the call failed; `fold` is what went into the summary.
    method RollSummary(conv: string, turns: int, answer: Option<string>) returns (summary: string, fold: seq<Entry>)
      modifies this
      ensures fold == if turns > 0 && Usable(answer) then Pending(old(View(conv)), conv, turns) else []
      ensures View(conv) == Fold(old(View(conv)), fold)
      ensures summaries == if fold == [] then old(summaries) else old(summaries)[conv := Strip(answer.value)]
      ensures summary == SummaryOf(summaries, conv)
      ensures marks - {conv} == old(marks) - {conv} && folded - {conv} == old(folded) - {conv}
      ensures log == old(log) && archive == old(archive) && next == old(next)
    {
      summary, fold := SummaryOf(summaries, conv), [];
      if turns <= 0 {
        return;
      }
      var unfolded := Scrolled(conv, turns);
      if unfolded == [] || !Usable(answer) {
        return;
      }
      fold := unfolded;
      summary := Keep(conv, unfolded, Strip(answer.value));
    }

    // What scrolled out of the window after the watermark.
    method Scrolled(conv: string, turns: int) returns (unfolded: seq<Entry>)
      requires turns > 0
      ensures unfolded == Pending(View(conv), conv, turns)
    {
      var entries := History(log, conv, ROLL_LIMIT);
      var overflow := if |entries| > turns then entries[..|entries| - turns] else [];
      var start := if conv in marks && IndexOf(overflow, marks[conv]) < |overflow|
                   then IndexOf(overflow, marks[conv]) + 1 else 0;
      UnfoldedFrom(overflow, View(conv).mark, start);
      unfolded := overflow[start..];
    }

    // Write the summary back, with its watermark.
    method Keep(conv: string, unfolded: seq<Entry>, text: string) returns (summary: string)
      requires unfolded != []
      modifies this
      ensures View(conv) == Fold(old(View(conv)), unfolded)
      ensures summary == text && summaries == old(summaries)[conv := text]
      ensures marks - {conv} == old(marks) - {conv} && folded - {conv} == old(folded) - {conv}
      ensures log == old(log) && archive == old(archive) && next == old(next)
    {
      summary := text;
      summaries := summaries[conv := summary];
      marks := marks[conv := unfolded[|unfolded| - 1].id];
      folded := folded[conv := (if conv in folded then folded[conv] else []) + unfolded];
    }

    // The age-based sweep moves the old prefix out, losing nothing.
    method ArchiveOld(cutoff: int) returns (moved: nat)
      modifies this
      ensures forall c: string, turns: int :: View(c) == Step(old(View(c)), Archive(cutoff), c, turns)
      ensures archive + log == old(archive) + old(log) && |archive| == |old(archive)| + moved
      ensures summaries == old(summaries)
    {
      moved := 0;
      while moved < |log| && log[moved].ts < cutoff
        invariant moved <= |log|
        invariant OldPrefix(log, cutoff) == moved + OldPrefix(log[moved..], cutoff)
      {
        assert log[moved..][1..] == log[moved + 1..];
        moved := moved + 1;
      }
      assert archive + log[..moved] + log[moved..] == archive + log;
      archive := archive + log[..moved];
      log := log[moved..];
    }
  }
}
