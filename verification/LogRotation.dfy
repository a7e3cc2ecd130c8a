// Audit-log rotation, and the reader that folds the archives back in by file name.
module LogRotation {
  import opened Text

  // `day` is the calendar day of the event's timestamp in ISO form: ten characters.
  datatype Event = Event(id: nat, day: string)

  // What an archive's name says; `n` is 0 for a day's first archive.
  datatype Key = Key(day: string, n: nat)

  datatype File = File(key: Key, events: seq<Event>)

  function Suffix(n: nat): string {
    if n == 0 then ".jsonl" else "." + Decimal(n) + ".jsonl"
  }

  function Name(key: Key): string {
    "events-" + (key.day + Suffix(key.n))
  }

  predicate NameLe(a: Key, b: Key) {
    StrLe(Name(a), Name(b))
  }

  function Flat(files: seq<File>): seq<Event> {
    if files == [] then [] else files[0].events + Flat(files[1..])
  }

  // `sorted(...)` over the archives' names.
  function Insert(f: File, sorted: seq<File>): seq<File> {
    if sorted == [] || NameLe(f.key, sorted[0].key) then [f] + sorted else [sorted[0]] + Insert(f, sorted[1..])
  }

  function SortByName(files: seq<File>): seq<File> {
    if files == [] then [] else Insert(files[0], SortByName(files[1..]))
  }

  // Archives in the order they were made, the active log, and the history: everything ever appended or pruned.
  datatype Logs = Logs(files: seq<File>, active: seq<Event>, appended: seq<Event>, pruned: seq<Event>)

  // read_events.
  function Read(s: Logs): seq<Event> {
    Flat(SortByName(s.files)) + s.active
  }

  predicate Exists(files: seq<File>, key: Key) {
    exists f :: f in files && f.key == key
  }

  function IndicesFrom(files: seq<File>, day: string, n: nat): set<nat> {
    set i | 0 <= i < |files| && files[i].key.day == day && files[i].key.n >= n :: i
  }

  lemma FewerIndices(files: seq<File>, day: string, n: nat)
    requires Exists(files, Key(day, n))
    ensures |IndicesFrom(files, day, n + 1)| < |IndicesFrom(files, day, n)|
  {
    var f :| f in files && f.key == Key(day, n);
    var i :| 0 <= i < |files| && files[i] == f;
    var rest := IndicesFrom(files, day, n + 1);
    assert rest + {i} <= IndicesFrom(files, day, n) && i !in rest;
    SubsetIsNoLarger(rest + {i}, IndicesFrom(files, day, n));
  }

  // The first counter, from `n` on, whose name is free.
  function FreeFrom(files: seq<File>, day: string, n: nat): (k: nat)
    ensures k >= n && !Exists(files, Key(day, k))
    ensures forall j :: n <= j < k ==> Exists(files, Key(day, j))
    decreases |IndicesFrom(files, day, n)|
  {
    if Exists(files, Key(day, n)) then
      FewerIndices(files, day, n);
      FreeFrom(files, day, n + 1)
    else n
  }

  function Before(day: string, cutoff: string): bool {
    !StrLe(cutoff, day)
  }

  function Surviving(files: seq<File>, cutoff: string): seq<File> {
    if files == [] then []
    else if Before(files[0].key.day, cutoff) then Surviving(files[1..], cutoff)
    else [files[0]] + Surviving(files[1..], cutoff)
  }

  function Expired(files: seq<File>, cutoff: string): seq<Event> {
    if files == [] then []
    else if Before(files[0].key.day, cutoff) then files[0].events + Expired(files[1..], cutoff)
    else Expired(files[1..], cutoff)
  }

  datatype Step =
    | Append(day: string)
    // `big` says whether the size cap was reached; there is no cutoff when retention is off.
    | Rotate(today: string, big: bool, cutoff: Option<string>)

  function RolledOver(s: Logs, today: string, big: bool): Logs {
    if s.active != [] && (s.active[0].day != today || big) then
      var day := s.active[0].day;
      s.(files := s.files + [File(Key(day, FreeFrom(s.files, day, 0)), s.active)], active := [])
    else s
  }

  function Pruned(s: Logs, cutoff: Option<string>): Logs {
    if cutoff.None? then s
    else s.(files := Surviving(s.files, cutoff.value), pruned := s.pruned + Expired(s.files, cutoff.value))
  }

  function Next(s: Logs, step: Step): Logs {
    match step
    case Append(day) =>
      var e := Event(|s.appended|, day);
      s.(active := s.active + [e], appended := s.appended + [e])
    case Rotate(today, big, cutoff) => Pruned(RolledOver(s, today, big), cutoff)
  }

  function Run(s: Logs, steps: seq<Step>): Logs
    decreases |steps|
  {
    if steps == [] then s else Run(Next(s, steps[0]), steps[1..])
  }

  const START := Logs([], [], [], [])

  // --- names ---

  lemma SuffixSecond(n: nat)
    ensures |Suffix(n)| > 1 && Suffix(n)[0] == '.' && (n == 0 <==> Suffix(n)[1] == 'j') && Suffix(n)[1] <= 'j'
  {
    assert n > 0 ==> Suffix(n)[1] == Decimal(n)[0];
  }

  lemma SuffixNamesTheCounter(m: nat, n: nat)
    requires Suffix(m) == Suffix(n)
    ensures m == n
  {
    SuffixSecond(m);
    SuffixSecond(n);
    if m > 0 && n > 0 {
      assert Suffix(m)[1..|Decimal(m)| + 1] == Decimal(m) && Suffix(n)[1..|Decimal(n)| + 1] == Decimal(n);
      DecimalNamesTheNumber(m, n);
    }
  }

  // Different archives have different names, so a rename to a free name overwrites none.
  lemma NamesAreUnique(a: Key, b: Key)
    requires |a.day| == |b.day| == 10
    ensures Name(a) == Name(b) <==> a == b
  {
    if Name(a) == Name(b) {
      assert Name(a)[7..17] == a.day && Name(b)[7..17] == b.day;
      assert Name(a)[17..] == Suffix(a.n) && Name(b)[17..] == Suffix(b.n);
      SuffixNamesTheCounter(a.n, b.n);
    }
  }

  lemma {:induction false} SamePrefix(p: string, a: string, b: string)
    ensures StrLe(p + a, p + b) <==> StrLe(a, b)
  {
    if p == "" {
      assert p + a == a && p + b == b;
    } else {
      assert (p + a)[1..] == p[1..] + a && (p + b)[1..] == p[1..] + b;
      SamePrefix(p[1..], a, b);
    }
  }

  lemma {:induction false} EqualLengthsDecide(a: string, b: string, x: string, y: string)
    requires |a| == |b| && a != b
    ensures StrLe(a + x, b + y) <==> StrLe(a, b)
  {
    if a[0] == b[0] {
      assert a == [a[0]] + a[1..] && b == [b[0]] + b[1..];
      assert (a + x)[1..] == a[1..] + x && (b + y)[1..] == b[1..] + y;
      EqualLengthsDecide(a[1..], b[1..], x, y);
    }
  }

  // Archives of different days sort by day.
  lemma DaysDecide(a: Key, b: Key)
    requires |a.day| == |b.day| && a.day != b.day
    ensures NameLe(a, b) <==> StrLe(a.day, b.day)
  {
    SamePrefix("events-", a.day + Suffix(a.n), b.day + Suffix(b.n));
    EqualLengthsDecide(a.day, b.day, Suffix(a.n), Suffix(b.n));
  }

  // A same-day split sorts before the day's first archive, although it was written later.
  lemma SplitSortsFirst(day: string, n: nat)
    requires n > 0
    ensures NameLe(Key(day, n), Key(day, 0)) && !NameLe(Key(day, 0), Key(day, n))
  {
    SamePrefix("events-", day + Suffix(n), day + Suffix(0));
    SamePrefix("events-", day + Suffix(0), day + Suffix(n));
    SamePrefix(day, Suffix(n), Suffix(0));
    SamePrefix(day, Suffix(0), Suffix(n));
    SuffixSecond(n);
    SuffixSecond(0);
    assert Suffix(n)[1..][0] == Suffix(n)[1] && Suffix(0)[1..][0] == Suffix(0)[1];
  }

  // --- what one rotation does ---

  // The active log rolls over if and only if it holds events and started on another day or reached the size cap: then it
  // becomes one new archive, whole, under the day it started; the archives kept are those not older than the cutoff.
  lemma RotatesExactly(s: Logs, today: string, big: bool, cutoff: Option<string>) returns (n: nat)
    ensures var t := Next(s, Rotate(today, big, cutoff));
            var rolls := s.active != [] && (s.active[0].day != today || big);
            var files := if rolls then s.files + [File(Key(s.active[0].day, n), s.active)] else s.files;
            && t.active == (if rolls then [] else s.active) && t.appended == s.appended
            && (rolls ==> !Exists(s.files, Key(s.active[0].day, n))
                          && forall j :: 0 <= j < n ==> Exists(s.files, Key(s.active[0].day, j)))
            && (cutoff.None? ==> t.files == files)
            && (cutoff.Some? ==> forall f :: f in t.files <==> f in files && StrLe(cutoff.value, f.key.day))
  {
    n := if s.active != [] then FreeFrom(s.files, s.active[0].day, 0) else 0;
    if cutoff.Some? {
      SurvivingMembers(RolledOver(s, today, big).files, cutoff.value);
    }
  }

  // --- nothing is lost, nothing is made up ---

  lemma {:induction false} InsertContents(f: File, sorted: seq<File>)
    ensures multiset(Flat(Insert(f, sorted))) == multiset(f.events) + multiset(Flat(sorted))
    ensures multiset(Insert(f, sorted)) == multiset{f} + multiset(sorted)
  {
    if sorted == [] || NameLe(f.key, sorted[0].key) {
      assert ([f] + sorted)[1..] == sorted;
    } else {
      InsertContents(f, sorted[1..]);
      assert ([sorted[0]] + Insert(f, sorted[1..]))[1..] == Insert(f, sorted[1..]);
      assert sorted == [sorted[0]] + sorted[1..];
    }
  }

  lemma {:induction false} SortContents(files: seq<File>)
    ensures multiset(Flat(SortByName(files))) == multiset(Flat(files))
    ensures multiset(SortByName(files)) == multiset(files)
  {
    if files != [] {
      SortContents(files[1..]);
      InsertContents(files[0], SortByName(files[1..]));
      assert files == [files[0]] + files[1..];
    }
  }

  lemma {:induction false} FlatSnoc(files: seq<File>, f: File)
    ensures Flat(files + [f]) == Flat(files) + f.events
  {
    if files == [] {
      assert [f][1..] == [];
    } else {
      assert (files + [f])[1..] == files[1..] + [f];
      FlatSnoc(files[1..], f);
    }
  }

  lemma {:induction false} PruneContents(files: seq<File>, cutoff: string)
    ensures multiset(Flat(Surviving(files, cutoff))) + multiset(Expired(files, cutoff)) == multiset(Flat(files))
  {
    if files != [] {
      PruneContents(files[1..], cutoff);
    }
  }

  ghost predicate Conserved(s: Logs) {
    multiset(Flat(s.files)) + multiset(s.active) + multiset(s.pruned) == multiset(s.appended)
  }

  lemma RollOverConserves(s: Logs, today: string, big: bool)
    requires Conserved(s)
    ensures Conserved(RolledOver(s, today, big))
  {
    var t := RolledOver(s, today, big);
    if t != s {
      FlatSnoc(s.files, t.files[|s.files|]);
    }
  }

  lemma PruneConserves(s: Logs, cutoff: Option<string>)
    requires Conserved(s)
    ensures Conserved(Pruned(s, cutoff))
  {
    if cutoff.Some? {
      PruneContents(s.files, cutoff.value);
    }
  }

  lemma NextConserves(s: Logs, step: Step)
    requires Conserved(s)
    ensures Conserved(Next(s, step))
  {
    match step
    case Append(day) =>
    case Rotate(today, big, cutoff) =>
      RollOverConserves(s, today, big);
      PruneConserves(RolledOver(s, today, big), cutoff);
  }

  lemma {:induction false} RunConserves(s: Logs, steps: seq<Step>)
    requires Conserved(s)
    ensures Conserved(Run(s, steps))
    decreases |steps|
  {
    if steps != [] {
      NextConserves(s, steps[0]);
      RunConserves(Next(s, steps[0]), steps[1..]);
    }
  }

  // Whatever was appended, rotated and pruned in whatever order, and whatever the clock did: the reader returns each
  // appended event once, except those in pruned archives.
  lemma ReadReturnsWhatIsKept(steps: seq<Step>)
    ensures var s := Run(START, steps); multiset(Read(s)) + multiset(s.pruned) == multiset(s.appended)
  {
    RunConserves(START, steps);
    SortContents(Run(START, steps).files);
  }

  // --- order ---

  predicate Rising(es: seq<Event>) {
    es == [] || (Above(es[1..], es[0].id) && Rising(es[1..]))
  }

  predicate Above(es: seq<Event>, id: nat) {
    forall e :: e in es ==> id < e.id
  }

  // Everything in `a` was appended before everything in `b`.
  predicate Precedes(a: seq<Event>, b: seq<Event>) {
    forall e :: e in a ==> Above(b, e.id)
  }

  lemma {:induction false} RisingConcat(a: seq<Event>, b: seq<Event>)
    ensures Rising(a + b) <==> Rising(a) && Rising(b) && Precedes(a, b)
  {
    if a == [] {
      assert a + b == b;
    } else {
      assert (a + b)[1..] == a[1..] + b;
      RisingConcat(a[1..], b);
      assert a == [a[0]] + a[1..];
      assert Above(a[1..] + b, a[0].id) <==> Above(a[1..], a[0].id) && Above(b, a[0].id) by {
        assert forall e :: e in a[1..] + b <==> e in a[1..] || e in b;
      }
    }
  }

  // The archive `f` is older than `g`: an earlier day, or an earlier split of the same day; and so are its events.
  predicate Older(f: File, g: File) {
    && StrLe(f.key.day, g.key.day) && (f.key.day == g.key.day ==> f.key.n < g.key.n)
    && Precedes(f.events, g.events)
  }

  predicate AllOlder(files: seq<File>, g: File) {
    forall f :: f in files ==> Older(f, g)
  }

  predicate Ordered(files: seq<File>) {
    files == [] || (AllOlder(files[..|files| - 1], files[|files| - 1]) && Ordered(files[..|files| - 1]))
  }

  predicate Sound(f: File) {
    |f.key.day| == 10 && f.events != [] && f.events[0].day == f.key.day && Rising(f.events)
  }

  // The splits of a day are numbered without gaps.
  predicate Numbered(files: seq<File>) {
    forall f :: f in files && f.key.n > 0 ==> Exists(files, Key(f.key.day, f.key.n - 1))
  }

  // Nothing in the log is later than `clock`, and the active log comes after every archive.
  predicate Placed(f: File, active: seq<Event>) {
    Precedes(f.events, active) && forall e :: e in active ==> StrLe(f.key.day, e.day)
  }

  predicate Dated(s: Logs, clock: string) {
    && (forall f :: f in s.files ==> StrLe(f.key.day, clock))
    && (forall e :: e in s.active ==> |e.day| == 10 && StrLe(e.day, clock))
  }

  predicate Fits(s: Logs) {
    && (forall f :: f in s.files ==> (forall e :: e in f.events ==> e.id < |s.appended|))
    && (forall e :: e in s.active ==> e.id < |s.appended|)
  }

  ghost predicate Tidy(s: Logs, clock: string) {
    && Ordered(s.files) && Numbered(s.files) && (forall f :: f in s.files ==> Sound(f) && Placed(f, s.active))
    && Rising(s.active) && Dated(s, clock) && Fits(s)
  }

  lemma AppendTidy(s: Logs, clock: string, day: string)
    requires Tidy(s, clock) && |day| == 10 && StrLe(clock, day)
    ensures Tidy(Next(s, Append(day)), day)
  {
    var e := Event(|s.appended|, day);
    var t := Next(s, Append(day));
    assert Rising([e]) by {
      assert [e][1..] == [];
    }
    RisingConcat(s.active, [e]);
    StrLeTotal(day, day);
    forall f | f in s.files ensures StrLe(f.key.day, day) && Placed(f, t.active) {
      StrLeTransitive(f.key.day, clock, day);
    }
    forall x | x in s.active ensures StrLe(x.day, day) {
      StrLeTransitive(x.day, clock, day);
    }
  }

  lemma {:induction false} NoGaps(files: seq<File>, f: File, k: nat)
    requires Numbered(files) && f in files && k <= f.key.n
    ensures Exists(files, Key(f.key.day, k))
    decreases f.key.n
  {
    if k < f.key.n {
      var g :| g in files && g.key == Key(f.key.day, f.key.n - 1);
      NoGaps(files, g, k);
    }
  }

  lemma NewestIsLast(s: Logs, clock: string, g: File)
    requires Tidy(s, clock) && s.active != []
    requires g == File(Key(s.active[0].day, FreeFrom(s.files, s.active[0].day, 0)), s.active)
    ensures Ordered(s.files + [g])
  {
    assert s.active[0] in s.active;
    assert (s.files + [g])[..|s.files|] == s.files;
    forall f | f in s.files ensures Older(f, g) {
      if f.key.day == g.key.day && f.key.n >= g.key.n {
        NoGaps(s.files, f, g.key.n);
      }
    }
  }

  lemma NewestIsNumbered(files: seq<File>, g: File)
    requires Numbered(files) && g.key.n == FreeFrom(files, g.key.day, 0)
    ensures Numbered(files + [g])
  {
    var all := files + [g];
    forall f | f in all && f.key.n > 0 ensures Exists(all, Key(f.key.day, f.key.n - 1)) {
      var h :| h in files && h.key == Key(f.key.day, f.key.n - 1);
      assert h in all;
    }
  }

  lemma RollOverTidy(s: Logs, clock: string, today: string, big: bool)
    requires Tidy(s, clock)
    ensures Tidy(RolledOver(s, today, big), clock)
  {
    var t := RolledOver(s, today, big);
    if t != s {
      var g := File(Key(s.active[0].day, FreeFrom(s.files, s.active[0].day, 0)), s.active);
      assert s.active[0] in s.active;
      NewestIsLast(s, clock, g);
      NewestIsNumbered(s.files, g);
      assert t == Logs(s.files + [g], [], s.appended, s.pruned);
    }
  }

  lemma {:induction false} SurvivingMembers(files: seq<File>, cutoff: string)
    ensures forall f :: f in Surviving(files, cutoff) <==> f in files && !Before(f.key.day, cutoff)
  {
    if files != [] {
      SurvivingMembers(files[1..], cutoff);
      assert files == [files[0]] + files[1..];
    }
  }

  lemma {:induction false} SurvivingSnoc(files: seq<File>, f: File, cutoff: string)
    ensures Surviving(files + [f], cutoff)
            == if Before(f.key.day, cutoff) then Surviving(files, cutoff) else Surviving(files, cutoff) + [f]
  {
    if files == [] {
      assert [f][1..] == [] && [] + [f] == [f];
    } else {
      assert (files + [f])[1..] == files[1..] + [f];
      SurvivingSnoc(files[1..], f, cutoff);
    }
  }

  lemma {:induction false} SurvivingOrdered(files: seq<File>, cutoff: string)
    requires Ordered(files)
    ensures Ordered(Surviving(files, cutoff))
  {
    if files != [] {
      var k := |files| - 1;
      SurvivingOrdered(files[..k], cutoff);
      SurvivingMembers(files[..k], cutoff);
      SurvivingSnoc(files[..k], files[k], cutoff);
      assert files[..k] + [files[k]] == files;
      var kept := Surviving(files[..k], cutoff);
      assert (kept + [files[k]])[..|kept|] == kept;
    }
  }

  lemma PruneTidy(s: Logs, clock: string, cutoff: Option<string>)
    requires Tidy(s, clock)
    ensures Tidy(Pruned(s, cutoff), clock)
  {
    if cutoff.Some? {
      var kept := Surviving(s.files, cutoff.value);
      SurvivingOrdered(s.files, cutoff.value);
      SurvivingMembers(s.files, cutoff.value);
      forall f | f in kept && f.key.n > 0 ensures Exists(kept, Key(f.key.day, f.key.n - 1)) {
        var g :| g in s.files && g.key == Key(f.key.day, f.key.n - 1);
        assert g in kept;
      }
    }
  }

  // The days of appended events never step back.
  ghost predicate Monotone(clock: string, steps: seq<Step>)
    decreases |steps|
  {
    steps == [] ||
    match steps[0]
    case Append(day) => |day| == 10 && StrLe(clock, day) && Monotone(day, steps[1..])
    case Rotate(_, _, _) => Monotone(clock, steps[1..])
  }

  lemma {:induction false} RunTidy(s: Logs, clock: string, steps: seq<Step>) returns (last: string)
    requires Tidy(s, clock) && Monotone(clock, steps)
    ensures Tidy(Run(s, steps), last)
    decreases |steps|
  {
    if steps == [] {
      last := clock;
    } else {
      match steps[0]
      case Append(day) =>
        AppendTidy(s, clock, day);
        last := RunTidy(Next(s, steps[0]), day, steps[1..]);
      case Rotate(today, big, cutoff) =>
        RollOverTidy(s, clock, today, big);
        PruneTidy(RolledOver(s, today, big), clock, cutoff);
        last := RunTidy(Next(s, steps[0]), clock, steps[1..]);
    }
  }

  // --- the sort ---

  predicate Least(f: File, files: seq<File>) {
    forall g :: g in files ==> NameLe(f.key, g.key)
  }

  predicate Sorted(files: seq<File>) {
    files == [] || (Least(files[0], files[1..]) && Sorted(files[1..]))
  }

  lemma {:induction false} InsertMembers(f: File, sorted: seq<File>)
    ensures forall g :: g in Insert(f, sorted) <==> g == f || g in sorted
  {
    if sorted != [] && !NameLe(f.key, sorted[0].key) {
      InsertMembers(f, sorted[1..]);
      assert sorted == [sorted[0]] + sorted[1..];
    }
  }

  lemma {:induction false} SortMembers(files: seq<File>)
    ensures forall g :: g in SortByName(files) <==> g in files
  {
    if files != [] {
      SortMembers(files[1..]);
      InsertMembers(files[0], SortByName(files[1..]));
      assert files == [files[0]] + files[1..];
    }
  }

  lemma {:induction false} InsertSorts(f: File, sorted: seq<File>)
    requires Sorted(sorted)
    ensures Sorted(Insert(f, sorted))
  {
    if sorted == [] || NameLe(f.key, sorted[0].key) {
      assert ([f] + sorted)[1..] == sorted;
      forall g | g in sorted ensures NameLe(f.key, g.key) {
        if g != sorted[0] {
          assert g in sorted[1..];
          StrLeTransitive(Name(f.key), Name(sorted[0].key), Name(g.key));
        }
      }
    } else {
      StrLeTotal(Name(f.key), Name(sorted[0].key));
      InsertSorts(f, sorted[1..]);
      InsertMembers(f, sorted[1..]);
      assert Insert(f, sorted)[1..] == Insert(f, sorted[1..]);
    }
  }

  lemma {:induction false} SortSorts(files: seq<File>)
    ensures Sorted(SortByName(files))
  {
    if files != [] {
      SortSorts(files[1..]);
      InsertSorts(files[0], SortByName(files[1..]));
    }
  }

  lemma {:induction false} SortOfSorted(files: seq<File>)
    requires Sorted(files)
    ensures SortByName(files) == files
  {
    if files != [] {
      SortOfSorted(files[1..]);
      assert |files| > 1 ==> files[1] in files[1..];
    }
  }

  // --- when the reader's order is the order of writing ---

  lemma {:induction false} FlatMembers(files: seq<File>, e: Event)
    ensures e in Flat(files) <==> exists f :: f in files && e in f.events
  {
    if files != [] {
      FlatMembers(files[1..], e);
      assert files == [files[0]] + files[1..];
    }
  }

  lemma {:induction false} OrderedIsRising(files: seq<File>)
    requires Ordered(files) && forall f :: f in files ==> Sound(f)
    ensures Rising(Flat(files))
  {
    if files != [] {
      var k := |files| - 1;
      OrderedIsRising(files[..k]);
      FlatSnoc(files[..k], files[k]);
      assert files[..k] + [files[k]] == files;
      assert files[k] in files && Sound(files[k]);
      forall e | e in Flat(files[..k]) ensures Above(files[k].events, e.id) {
        FlatMembers(files[..k], e);
      }
      RisingConcat(Flat(files[..k]), files[k].events);
    }
  }

  lemma {:induction false} OrderedAt(files: seq<File>, i: nat, j: nat)
    requires Ordered(files) && i < j < |files|
    ensures Older(files[i], files[j])
  {
    var k := |files| - 1;
    if j < k {
      OrderedAt(files[..k], i, j);
    } else {
      assert files[i] in files[..k];
    }
  }

  lemma {:induction false} UnsplitIsSorted(files: seq<File>, i: nat)
    requires Ordered(files) && (forall f :: f in files ==> Sound(f) && f.key.n == 0) && i <= |files|
    ensures Sorted(files[i..])
    decreases |files| - i
  {
    if i < |files| {
      UnsplitIsSorted(files, i + 1);
      assert files[i..][1..] == files[i + 1..];
      forall g | g in files[i + 1..] ensures NameLe(files[i].key, g.key) {
        var j :| i < j < |files| && files[j] == g;
        OrderedAt(files, i, j);
        assert files[i] in files && files[j] in files;
        DaysDecide(files[i].key, g.key);
      }
    }
  }

  // A split's day has a first archive, and it is older.
  lemma FirstIsOlder(files: seq<File>, f: File) returns (g: File)
    requires Ordered(files) && Numbered(files) && f in files && f.key.n > 0
    ensures g in files && g.key == Key(f.key.day, 0) && Older(g, f)
  {
    NoGaps(files, f, 0);
    g :| g in files && g.key == Key(f.key.day, 0);
    var i :| 0 <= i < |files| && files[i] == f;
    var j :| 0 <= j < |files| && files[j] == g;
    if i < j {
      OrderedAt(files, i, j);
    } else {
      OrderedAt(files, j, i);
    }
  }

  lemma SplitIsMisread(files: seq<File>, f: File)
    requires Ordered(files) && Numbered(files) && (forall g :: g in files ==> Sound(g))
    requires f in files && f.key.n > 0
    ensures !Rising(Flat(SortByName(files)))
  {
    var g := FirstIsOlder(files, f);
    assert Sound(f) && Sound(g);
    SplitSortsFirst(f.key.day, f.key.n);
    SortMembers(files);
    SortSorts(files);
    assert f.events[0] in f.events && g.events[0] in g.events;
    assert !Precedes(f.events, g.events);
    if Rising(Flat(SortByName(files))) {
      ReadInNameOrder(SortByName(files), f, g);
    }
  }

  lemma {:induction false} ReadInNameOrder(files: seq<File>, f: File, g: File)
    requires f in files && g in files && Sorted(files) && Rising(Flat(files)) && !NameLe(g.key, f.key)
    ensures Precedes(f.events, g.events)
  {
    assert files == [files[0]] + files[1..];
    RisingConcat(files[0].events, Flat(files[1..]));
    StrLeTotal(Name(f.key), Name(f.key));
    if files[0] == f {
      forall e | e in g.events ensures e in Flat(files[1..]) {
        FlatMembers(files[1..], e);
      }
    } else {
      assert files[0] != g;
      ReadInNameOrder(files[1..], f, g);
    }
  }

  // Under a clock whose days never step back, the reader returns the log in the order it was written if and only if
  // no day was split into several archives. (Pruning removes a day's splits together.)
  lemma ReadInOrderExactly(steps: seq<Step>)
    requires Monotone("", steps)
    ensures var s := Run(START, steps); Rising(Read(s)) <==> forall f :: f in s.files ==> f.key.n == 0
  {
    var s := Run(START, steps);
    var last := RunTidy(START, "", steps);
    RisingConcat(Flat(SortByName(s.files)), s.active);
    if forall f :: f in s.files ==> f.key.n == 0 {
      UnsplitIsSorted(s.files, 0);
      assert s.files[0..] == s.files;
      SortOfSorted(s.files);
      OrderedIsRising(s.files);
      forall e | e in Flat(s.files) ensures Above(s.active, e.id) {
        FlatMembers(s.files, e);
      }
    } else {
      var f :| f in s.files && f.key.n != 0;
      SplitIsMisread(s.files, f);
    }
  }

  // Two rotations by size on one day split it: the later event is read first.
  lemma TwoRotationsSplitTheDay(day: string)
    requires |day| == 10
    ensures var steps := [Append(day), Rotate(day, true, None), Append(day), Rotate(day, true, None)];
            var s := Run(START, steps);
            && s.files == [File(Key(day, 0), [Event(0, day)]), File(Key(day, 1), [Event(1, day)])]
            && s.appended == [Event(0, day), Event(1, day)]
            && Read(s) == [Event(1, day), Event(0, day)]
  {
    var a, b := Append(day), Rotate(day, true, None);
    var e, f := Event(0, day), Event(1, day);
    var g, h := File(Key(day, 0), [e]), File(Key(day, 1), [f]);
    var s2 := Logs([g], [], [e], []);
    FirstRotation(day);
    SecondRotation(day);
    assert [a, b, a, b][1..] == [b, a, b] && [b, a, b][1..] == [a, b] && [a, b][1..] == [b] && [b][1..] == [];
    assert Run(Next(s2, a), [b]) == Run(Next(Next(s2, a), b), []);
    assert Run(s2, [a, b]) == Run(Next(s2, a), [b]);
    assert Run(Next(START, a), [b, a, b]) == Run(s2, [a, b]);
    SplitRead(g, h, day);
  }

  lemma FirstRotation(day: string)
    ensures Next(Next(START, Append(day)), Rotate(day, true, None))
            == Logs([File(Key(day, 0), [Event(0, day)])], [], [Event(0, day)], [])
  {
    var e := Event(0, day);
    assert Next(START, Append(day)) == Logs([], [e], [e], []);
    var none: seq<File> := [];
    assert !Exists(none, Key(day, 0)) && FreeFrom(none, day, 0) == 0;
  }

  lemma SecondRotation(day: string)
    ensures var e, f := Event(0, day), Event(1, day);
            var g, h := File(Key(day, 0), [e]), File(Key(day, 1), [f]);
            Next(Next(Logs([g], [], [e], []), Append(day)), Rotate(day, true, None)) == Logs([g, h], [], [e, f], [])
  {
    var e, f := Event(0, day), Event(1, day);
    var g := File(Key(day, 0), [e]);
    assert Next(Logs([g], [], [e], []), Append(day)) == Logs([g], [f], [e, f], []);
    assert g in [g] && g.key == Key(day, 0);
    assert !Exists([g], Key(day, 1));
    assert FreeFrom([g], day, 0) == 1;
  }

  lemma SplitRead(g: File, h: File, day: string)
    requires g.key == Key(day, 0) && h.key == Key(day, 1)
    ensures Flat(SortByName([g, h])) == h.events + g.events
  {
    SplitSortsFirst(day, 1);
    assert [g, h][1..] == [h] && [h][1..] == [];
    assert SortByName([h]) == [h];
    assert Insert(g, [h]) == [h] + Insert(g, []);
    assert [h, g][1..] == [g] && [g][1..] == [];
    assert Flat([g]) == g.events + [];
  }

  // --- the directory as the runtime changes it ---

  class LogDir {
    var files: seq<File>
    var active: seq<Event>
    ghost var appended: seq<Event>
    ghost var pruned: seq<Event>

    ghost function View(): Logs
      reads this
    {
      Logs(files, active, appended, pruned)
    }

    constructor ()
      ensures View() == START
    {
      files, active, appended, pruned := [], [], [], [];
    }

    method AppendEvent(e: Event)
      requires e.id == |appended|
      modifies this
      ensures View() == Next(old(View()), Append(e.day))
    {
      active := active + [e];
      appended := appended + [e];
    }

    method NameTaken(key: Key) returns (taken: bool)
      ensures taken <==> Exists(files, key)
    {
      taken := false;
      for i := 0 to |files|
        invariant taken <==> exists f :: f in files[..i] && f.key == key
      {
        assert files[..i + 1] == files[..i] + [files[i]];
        if files[i].key == key {
          taken := true;
        }
      }
      assert files[..|files|] == files;
    }

    method ArchivePath(day: string) returns (key: Key)
      ensures key == Key(day, FreeFrom(files, day, 0))
    {
      var taken := NameTaken(Key(day, 0));
      if !taken {
        return Key(day, 0);
      }
      var counter := 1;
      taken := NameTaken(Key(day, counter));
      while taken
        invariant counter > 0 && taken == Exists(files, Key(day, counter))
        invariant FreeFrom(files, day, 0) == FreeFrom(files, day, counter)
        decreases |IndicesFrom(files, day, counter)|, taken
      {
        FewerIndices(files, day, counter);
        counter := counter + 1;
        taken := NameTaken(Key(day, counter));
      }
      key := Key(day, counter);
    }

    method Prune(cutoff: Option<string>)
      modifies this
      ensures View() == Pruned(old(View()), cutoff)
    {
      if cutoff.None? {
        return;
      }
      var kept: seq<File> := [];
      ghost var expired: seq<Event> := [];
      for i := 0 to |files|
        invariant View() == old(View())
        invariant Surviving(files, cutoff.value) == kept + Surviving(files[i..], cutoff.value)
        invariant Expired(files, cutoff.value) == expired + Expired(files[i..], cutoff.value)
      {
        assert files[i..][1..] == files[i + 1..];
        if Before(files[i].key.day, cutoff.value) {
          expired := expired + files[i].events;
        } else {
          kept := kept + [files[i]];
        }
      }
      files := kept;
      pruned := pruned + expired;
    }

    method RotateLogs(today: string, big: bool, cutoff: Option<string>)
      modifies this
      ensures View() == Next(old(View()), Rotate(today, big, cutoff))
    {
      if active != [] {
        var startDay := active[0].day;
        if startDay != today || big {
          var key := ArchivePath(startDay);
          files := files + [File(key, active)];
          active := [];
        }
      }
      Prune(cutoff);
    }

    method ReadEvents() returns (events: seq<Event>)
      ensures events == Read(View())
    {
      events := ReadFiles(SortByName(files));
      events := events + active;
    }

    method ReadFiles(sorted: seq<File>) returns (events: seq<Event>)
      ensures events == Flat(sorted)
    {
      events := [];
      for i := 0 to |sorted|
        invariant events == Flat(sorted[..i])
      {
        assert sorted[..i + 1] == sorted[..i] + [sorted[i]];
        FlatSnoc(sorted[..i], sorted[i]);
        events := events + sorted[i].events;
      }
      assert sorted[..|sorted|] == sorted;
    }
  }
}
