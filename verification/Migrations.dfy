/** Store.Migrate on any number of replicas: check, apply, record, commit, with crashes, rollbacks and
    commits whose outcome the caller never learns. */
module Migrations {

  // ---- Filename order -------------------------------------------------------------------

  /** The byte order of sort.Strings. */
  predicate Less(a: string, b: string) {
    b != "" && (a == "" || a[0] < b[0] || (a[0] == b[0] && Less(a[1..], b[1..])))
  }

  lemma {:induction false} LessIsIrreflexive(a: string)
    ensures !Less(a, a)
  {
    if a != "" {
      LessIsIrreflexive(a[1..]);
    }
  }

  function Names(s: seq<string>): set<string> {
    set x | x in s
  }

  /** The embedded files after sort.Strings; names in one directory are distinct. */
  ghost predicate Sorted(files: seq<string>) {
    forall i, j :: 0 <= i < j < |files| ==> Less(files[i], files[j])
  }

  /** Less is the lexicographic order: a proper prefix comes first, and otherwise the first character that
      differs decides. */
  lemma {:induction false} LessMeans(a: string, b: string, k: nat)
    requires k <= |a| && k <= |b| && a[..k] == b[..k]
    requires k == |a| || k == |b| || a[k] != b[k]
    ensures Less(a, b) <==> k < |b| && (k == |a| || a[k] < b[k])
    decreases k
  {
    if k > 0 {
      assert a[0] == a[..k][0] == b[..k][0] == b[0];
      assert a[1..][..k - 1] == a[..k][1..] == b[1..][..k - 1];
      LessMeans(a[1..], b[1..], k - 1);
    }
  }

  lemma {:induction false} LessIsTransitive(a: string, b: string, c: string)
    requires Less(a, b) && Less(b, c)
    ensures Less(a, c)
  {
    if a != "" && a[0] == b[0] && b[0] == c[0] {
      LessIsTransitive(a[1..], b[1..], c[1..]);
    }
  }

  /** So there is one sorted list of a set of files, and Migrate's order depends on the names alone. */
  lemma {:induction false} SortedListIsUnique(a: seq<string>, b: seq<string>)
    requires Sorted(a) && Sorted(b) && Names(a) == Names(b)
    ensures a == b
  {
    assert |a| > 0 ==> a[0] in Names(a);
    assert |b| > 0 ==> b[0] in Names(b);
    if a != [] && b != [] {
      FirstIsLeast(a, b);
      FirstIsLeast(b, a);
      if a[0] != b[0] {
        LessIsTransitive(a[0], b[0], a[0]);
        LessIsIrreflexive(a[0]);
      }
      NamesOfRest(a);
      NamesOfRest(b);
      SortedListIsUnique(a[1..], b[1..]);
      assert a == [a[0]] + a[1..] && b == [b[0]] + b[1..];
    }
  }

  lemma FirstIsLeast(a: seq<string>, b: seq<string>)
    requires Sorted(a) && a != [] && b != [] && Names(a) == Names(b)
    ensures a[0] == b[0] || Less(a[0], b[0])
  {
    assert b[0] in Names(a);
  }

  lemma NamesOfRest(a: seq<string>)
    requires Sorted(a) && a != []
    ensures Names(a[1..]) == Names(a) - {a[0]} && Sorted(a[1..])
  {
    forall x | x in Names(a[1..])
      ensures x in Names(a) && x != a[0]
    {
      var i :| 0 <= i < |a[1..]| && a[1..][i] == x;
      assert a[i + 1] == x;
      LessIsIrreflexive(x);
    }
    assert a == [a[0]] + a[1..];
  }

  lemma SortedNamesDiffer(files: seq<string>, i: nat, j: nat)
    requires Sorted(files) && i < |files| && j < |files| && files[i] == files[j]
    ensures i == j
  {
    LessIsIrreflexive(files[i]);
  }

  // ---- Replicas and the database -----------------------------------------------------------

  type Replica = nat

  datatype Phase =
    | Idle
    | Checking(i: nat)   // about to ask whether file i is recorded
    | Opening(i: nat)    // it was not: about to begin and run the body
    | Applied(i: nat)    // the transaction has run the body
    | Named(i: nat)      // the transaction has also inserted the name
    | Done
    | Failed

  datatype World = World(
    recorded: set<string>,    // committed rows of schema_migrations
    effects: seq<string>,     // bodies whose effects are committed, in commit order
    replicas: seq<Phase>)

  datatype Event =
    | Begin(r: Replica)
    | Check(r: Replica)
    | ApplyBody(r: Replica)
    | InsertName(r: Replica)
    | Duplicate(r: Replica)
    | Commit(r: Replica)
    | CommitUnheard(r: Replica)
    | Abort(r: Replica)

  predicate At(w: World, r: Replica) { r < |w.replicas| }

  /** A second insert of a name waits on the unique index while the first transaction is open. */
  predicate NameFree(files: seq<string>, w: World, i: nat) {
    && i < |files| && files[i] !in w.recorded
    && forall r :: 0 <= r < |w.replicas| ==> w.replicas[r] != Named(i)
  }

  predicate Enabled(files: seq<string>, w: World, e: Event) {
    && At(w, e.r)
    && var p := w.replicas[e.r];
       match e
       case Begin(_) => p.Idle? || p.Done? || p.Failed?
       case Check(_) => p.Checking? && p.i <= |files|
       case ApplyBody(_) => p.Opening?
       case InsertName(_) => p.Applied? && NameFree(files, w, p.i)
       case Duplicate(_) => p.Applied? && p.i < |files| && files[p.i] in w.recorded
       case Commit(_) => p.Named?
       case CommitUnheard(_) => p.Named?
       case Abort(_) => !p.Idle? && !p.Done? && !p.Failed?
  }

  function Move(w: World, r: Replica, p: Phase): World
    requires At(w, r)
  {
    w.(replicas := w.replicas[r := p])
  }

  function CommitFile(w: World, name: string): World {
    w.(recorded := w.recorded + {name}, effects := w.effects + [name])
  }

  function Apply(files: seq<string>, w: World, e: Event): World
    requires Enabled(files, w, e)
  {
    var p := w.replicas[e.r];
    match e
    case Begin(r) => Move(w, r, Checking(0))
    case Check(r) =>
      Move(w, r, if p.i == |files| then Done
                 else if files[p.i] in w.recorded then Checking(p.i + 1)
                 else Opening(p.i))
    case ApplyBody(r) => Move(w, r, Applied(p.i))
    case InsertName(r) => Move(w, r, Named(p.i))
    case Duplicate(r) => Move(w, r, Failed)
    case Commit(r) => if p.i < |files| then Move(CommitFile(w, files[p.i]), r, Checking(p.i + 1)) else w
    case CommitUnheard(r) => if p.i < |files| then Move(CommitFile(w, files[p.i]), r, Failed) else w
    case Abort(r) => Move(w, r, Failed)
  }

  ghost predicate IsRun(files: seq<string>, w: World, run: seq<Event>)
    decreases |run|, 0
  {
    run == [] ||
    (var front := run[..|run| - 1];
     IsRun(files, w, front) && Enabled(files, After(files, w, front), run[|run| - 1]))
  }

  ghost function After(files: seq<string>, w: World, run: seq<Event>): World
    requires IsRun(files, w, run)
    decreases |run|, 1
  {
    if run == [] then w else Apply(files, After(files, w, run[..|run| - 1]), run[|run| - 1])
  }

  ghost predicate Init(w: World) {
    w.recorded == {} && w.effects == [] && forall r :: 0 <= r < |w.replicas| ==> w.replicas[r] == Idle
  }

  // ---- The invariant ---------------------------------------------------------------------------

  /** A replica at file i knows that all earlier files are recorded. */
  predicate Behind(p: Phase, k: nat) {
    match p
    case Checking(i) => i <= k
    case Opening(i) => i <= k
    case Applied(i) => i <= k
    case Named(i) => i == k
    case _ => true
  }

  ghost predicate InOrder(files: seq<string>, w: World) {
    && w.effects <= files
    && w.recorded == Names(w.effects)
    && (forall r :: 0 <= r < |w.replicas| ==> Behind(w.replicas[r], |w.effects|))
    && (forall r :: 0 <= r < |w.replicas| ==>
          (w.replicas[r].Opening? || w.replicas[r].Applied? || w.replicas[r].Named?)
          ==> w.replicas[r].i < |files|)
    && (forall r, q :: 0 <= r < q < |w.replicas| ==> !(w.replicas[r].Named? && w.replicas[q].Named?))
    && (forall r :: 0 <= r < |w.replicas| && w.replicas[r].Done? ==> w.effects == files)
  }

  /** The recorded files are the first ones of the list. */
  lemma RecordedFiles(files: seq<string>, w: World, i: nat)
    requires Sorted(files) && InOrder(files, w) && i < |files|
    ensures files[i] in w.recorded <==> i < |w.effects|
  {
    if i < |w.effects| {
      assert w.effects[i] in w.effects;
    } else if files[i] in w.recorded {
      var j :| 0 <= j < |w.effects| && w.effects[j] == files[i];
      SortedNamesDiffer(files, i, j);
    }
  }

  lemma StepKeepsOrder(files: seq<string>, w: World, e: Event)
    requires Sorted(files) && InOrder(files, w) && Enabled(files, w, e)
    ensures InOrder(files, Apply(files, w, e)) && w.effects <= Apply(files, w, e).effects
  {
    var p := w.replicas[e.r];
    assert Behind(p, |w.effects|);
    if e.Commit? || e.CommitUnheard? {
      CommitKeepsOrder(files, w, e);
    } else if (p.Checking? || p.Applied?) && p.i < |files| {
      RecordedFiles(files, w, p.i);
    }
  }

  lemma CommitKeepsOrder(files: seq<string>, w: World, e: Event)
    requires Sorted(files) && InOrder(files, w) && Enabled(files, w, e)
    requires e.Commit? || e.CommitUnheard?
    ensures InOrder(files, Apply(files, w, e)) && w.effects <= Apply(files, w, e).effects
  {
    var p, w' := w.replicas[e.r], Apply(files, w, e);
    assert Behind(p, |w.effects|) && p.i < |files|;
    assert w'.effects == files[..|w.effects| + 1];
    assert Names(w'.effects) == Names(w.effects) + {files[p.i]};
  }

  // ---- Whole runs ----------------------------------------------------------------------------------

  lemma {:induction false} RunsKeepOrder(files: seq<string>, w: World, run: seq<Event>)
    requires Sorted(files) && Init(w) && IsRun(files, w, run)
    ensures InOrder(files, After(files, w, run))
    decreases |run|
  {
    if run != [] {
      var front := run[..|run| - 1];
      RunsKeepOrder(files, w, front);
      StepKeepsOrder(files, After(files, w, front), run[|run| - 1]);
    }
  }

  /** In every interleaving the recorded names are a prefix of the sorted list, a body's effects are
      committed exactly when its name is recorded, and never twice. */
  lemma ExactlyOnceInOrder(files: seq<string>, w: World, run: seq<Event>, i: nat)
    requires Sorted(files) && Init(w) && IsRun(files, w, run) && i < |files|
    ensures var now := After(files, w, run);
      && now.effects <= files
      && now.recorded == Names(now.effects)
      && (files[i] in now.recorded <==> i < |now.effects|)
      && multiset(now.effects)[files[i]] == if files[i] in now.recorded then 1 else 0
  {
    RunsKeepOrder(files, w, run);
    var now := After(files, w, run);
    RecordedFiles(files, now, i);
    assert now.effects == files[..|now.effects|];
    CountInPrefix(files, |now.effects|, i);
  }

  lemma {:induction false} CountInPrefix(files: seq<string>, k: nat, i: nat)
    requires Sorted(files) && k <= |files| && i < |files|
    ensures multiset(files[..k])[files[i]] == if i < k then 1 else 0
  {
    if k > 0 {
      CountInPrefix(files, k - 1, i);
      assert files[..k] == files[..k - 1] + [files[k - 1]];
      if files[k - 1] == files[i] {
        SortedNamesDiffer(files, k - 1, i);
      }
    }
  }

  /** A replica whose Migrate returned nil left every migration applied. */
  lemma SuccessMeansApplied(files: seq<string>, w: World, run: seq<Event>, r: Replica)
    requires Sorted(files) && Init(w) && IsRun(files, w, run)
    requires At(After(files, w, run), r) && After(files, w, run).replicas[r] == Done
    ensures After(files, w, run).effects == files
  {
    RunsKeepOrder(files, w, run);
  }

  // ---- A replica that nothing disturbs succeeds -----------------------------------------------

  /** The step is an error of some statement. */
  predicate Failing(e: Event) {
    e.Duplicate? || e.CommitUnheard? || e.Abort?
  }

  predicate Resting(p: Phase) {
    p.Idle? || p.Done? || p.Failed?
  }

  /** What the replica does next if nothing fails. */
  function NextStep(p: Phase, r: Replica): Event {
    match p
    case Idle => Begin(r)
    case Done => Begin(r)
    case Failed => Begin(r)
    case Checking(_) => Check(r)
    case Opening(_) => ApplyBody(r)
    case Applied(_) => InsertName(r)
    case Named(_) => Commit(r)
  }

  /** No other replica holds the next name in an open transaction. */
  ghost predicate NobodyElseNames(w: World, r: Replica) {
    forall q :: 0 <= q < |w.replicas| && q != r ==> !w.replicas[q].Named?
  }

  /** Without a failure there is never a choice. */
  lemma OnlyNextStep(files: seq<string>, w: World, e: Event)
    requires Enabled(files, w, e) && !Failing(e)
    ensures e == NextStep(w.replicas[e.r], e.r)
  {
  }

  /** A replica that is still up to date about the file it works on. */
  ghost predicate UpToDate(w: World, r: Replica) {
    At(w, r) && (w.replicas[r].Opening? || w.replicas[r].Applied? ==> w.replicas[r].i == |w.effects|)
  }

  function StepsLeft(files: seq<string>, p: Phase): nat {
    match p
    case Checking(i) => if i <= |files| then 4 * (|files| - i) + 1 else 0
    case Opening(i) => if i < |files| then 4 * (|files| - i) else 0
    case Applied(i) => if i < |files| then 4 * (|files| - i) - 1 else 0
    case Named(i) => if i < |files| then 4 * (|files| - i) - 2 else 0
    case _ => 0
  }

  /** The next step is enabled, brings the replica nearer to its end and changes nobody else. */
  lemma NextStepWorks(files: seq<string>, w: World, r: Replica)
    requires Sorted(files) && InOrder(files, w) && UpToDate(w, r) && NobodyElseNames(w, r)
    requires !Resting(w.replicas[r])
    ensures var e := NextStep(w.replicas[r], r);
      && Enabled(files, w, e)
      && var w' := Apply(files, w, e);
      && UpToDate(w', r) && NobodyElseNames(w', r) && w'.replicas == w.replicas[r := w'.replicas[r]]
      && (w'.replicas[r] == Done || (!Resting(w'.replicas[r])
          && StepsLeft(files, w'.replicas[r]) < StepsLeft(files, w.replicas[r])))
  {
    var p := w.replicas[r];
    assert Behind(p, |w.effects|);
    if p.i < |files| {
      RecordedFiles(files, w, p.i);
    }
  }

  /** The step is r's, and no error. */
  predicate Undisturbed(e: Event, r: Replica) {
    e.r == r && !Failing(e)
  }

  lemma {:induction false} AloneFrom(files: seq<string>, start: World, run: seq<Event>, r: Replica)
      returns (full: seq<Event>)
    requires Sorted(files) && InOrder(files, start) && IsRun(files, start, run)
    requires forall e :: e in run ==> Undisturbed(e, r)
    requires var w := After(files, start, run);
      InOrder(files, w) && UpToDate(w, r) && NobodyElseNames(w, r) && !Resting(w.replicas[r])
    ensures IsRun(files, start, full) && run <= full && forall e :: e in full ==> Undisturbed(e, r)
    ensures var w, w' := After(files, start, run), After(files, start, full);
      w' == World(Names(files), files, w.replicas[r := Done])
    decreases StepsLeft(files, After(files, start, run).replicas[r])
  {
    var w := After(files, start, run);
    var e := NextStep(w.replicas[r], r);
    NextStepWorks(files, w, r);
    StepKeepsOrder(files, w, e);
    var next := run + [e];
    OneMore(files, start, run, e);
    if Apply(files, w, e).replicas[r] == Done {
      full := next;
    } else {
      full := AloneFrom(files, start, next, r);
    }
  }

  /** From every state that any replicas can have left behind, a replica whose statements all succeed and
      whose name nobody else holds returns nil with every file applied, and changes nothing else. By
      OnlyNextStep it has no other way to go. */
  lemma AloneSucceeds(files: seq<string>, w: World, r: Replica) returns (run: seq<Event>)
    requires Sorted(files) && InOrder(files, w) && At(w, r) && Resting(w.replicas[r]) && NobodyElseNames(w, r)
    ensures IsRun(files, w, run) && forall e :: e in run ==> Undisturbed(e, r)
    ensures After(files, w, run) == World(Names(files), files, w.replicas[r := Done])
  {
    var begin := [] + [Begin(r)];
    OneMore(files, w, [], Begin(r));
    StepKeepsOrder(files, w, Begin(r));
    run := AloneFrom(files, w, begin, r);
    assert w.replicas[r := Checking(0)][r := Done] == w.replicas[r := Done];
  }

  lemma OneMore(files: seq<string>, w: World, run: seq<Event>, e: Event)
    requires IsRun(files, w, run) && Enabled(files, After(files, w, run), e)
    ensures IsRun(files, w, run + [e])
    ensures After(files, w, run + [e]) == Apply(files, After(files, w, run), e)
  {
    assert (run + [e])[..|run|] == run;
  }

  function Checks(r: Replica, n: nat): seq<Event> {
    if n == 0 then [Begin(r)] else Checks(r, n - 1) + [Check(r)]
  }

  lemma CheckPasses(files: seq<string>, w: World, r: Replica, i: nat)
    requires Sorted(files) && InOrder(files, w) && w.effects == files && At(w, r) && i <= |files|
    ensures var now := Move(w, r, Checking(i));
      && Enabled(files, now, Check(r))
      && Apply(files, now, Check(r)) == Move(w, r, if i < |files| then Checking(i + 1) else Done)
  {
    if i < |files| {
      RecordedFiles(files, w, i);
    }
  }

  lemma {:induction false} ChecksPass(files: seq<string>, w: World, r: Replica, n: nat)
    requires Sorted(files) && InOrder(files, w) && w.effects == files && At(w, r) && Resting(w.replicas[r])
    requires n <= |files| + 1
    ensures IsRun(files, w, Checks(r, n))
    ensures After(files, w, Checks(r, n)) == Move(w, r, if n <= |files| then Checking(n) else Done)
  {
    if n == 0 {
      OneMore(files, w, [], Begin(r));
    } else {
      ChecksPass(files, w, r, n - 1);
      CheckPasses(files, w, r, n - 1);
      OneMore(files, w, Checks(r, n - 1), Check(r));
    }
  }

  /** A restart on a migrated database: one check per file and nothing else, whoever else is running. */
  lemma RestartOnlyChecks(files: seq<string>, w: World, r: Replica)
    requires Sorted(files) && InOrder(files, w) && w.effects == files && At(w, r) && Resting(w.replicas[r])
    ensures var run := Checks(r, |files| + 1);
      IsRun(files, w, run) && After(files, w, run) == Move(w, r, Done)
  {
    ChecksPass(files, w, r, |files| + 1);
  }

  // ---- The loop of Migrate ----------------------------------------------------------------------------

  /** What becomes of the statements for one file. */
  datatype FileFate = Fine | CheckFails | OpenFails | NameFails | CommitFails | CommitUnanswered

  /** What one call of Migrate does not decide: whether the table of names can be created, the fate of each
      file, those beyond the list being fine, and whether the other replicas keep quiet meanwhile. */
  datatype Env = Env(ready: bool, fates: seq<FileFate>, quiet: bool)

  function FateOf(fates: seq<FileFate>, i: nat): FileFate {
    if i < |fates| then fates[i] else Fine
  }

  predicate AllFine(env: Env, n: nat) {
    env.ready && forall i: nat :: i < n ==> FateOf(env.fates, i) == Fine
  }

  class Migrator {
    const me: Replica
    const files: seq<string>
    var w: World

    ghost predicate Valid()
      reads this
    {
      Sorted(files) && InOrder(files, w) && At(w, me)
    }

    constructor (me: Replica, files: seq<string>, w: World)
      requires Sorted(files) && InOrder(files, w) && At(w, me)
      ensures Valid() && this.me == me && this.files == files && this.w == w
    {
      this.me, this.files, this.w := me, files, w;
    }

    method Do(e: Event)
      requires Valid() && Enabled(files, w, e)
      modifies this
      ensures Valid() && w == Apply(files, old(w), e) && old(w.effects) <= w.effects
    {
      StepKeepsOrder(files, w, e);
      w := Apply(files, w, e);
    }

    /** Any steps of the other replicas, or none. */
    method Others(quiet: bool)
      requires Valid()
      modifies this
      ensures Valid() && w.replicas[me] == old(w.replicas[me]) && old(w.effects) <= w.effects
      ensures quiet ==> w == old(w)
    {
      if quiet {
        return;
      }
      var script: seq<Event> := *;
      for k := 0 to |script|
        invariant Valid() && w.replicas[me] == old(w.replicas[me]) && old(w.effects) <= w.effects
      {
        if script[k].r != me && Enabled(files, w, script[k]) {
          Do(script[k]);
        }
      }
    }

    /** The error return of any statement. */
    method GiveUp()
      requires Valid() && !Resting(w.replicas[me])
      modifies this
      ensures Valid() && w == Move(old(w), me, Failed)
    {
      Do(Abort(me));
    }

    /** Begin, run the body and insert the name. */
    method OpenFile(i: nat, fate: FileFate, quiet: bool) returns (ok: bool)
      requires Valid() && i < |files| && w.replicas[me] == Opening(i)
      modifies this
      ensures Valid() && old(w.effects) <= w.effects
      ensures w.replicas[me] == if ok then Named(i) else Failed
      ensures ok && quiet ==> w == Move(old(w), me, Named(i))
      ensures quiet && !fate.OpenFails? && !fate.NameFails? && NameFree(files, old(w), i) ==> ok
    {
      if fate.OpenFails? {
        GiveUp();
        return false;
      }
      Do(ApplyBody(me));
      Others(quiet);
      if fate.NameFails? || !NameFree(files, w, i) {
        // an error, a unique violation, or a cut wait for the transaction that holds the name
        if files[i] in w.recorded {
          Do(Duplicate(me));
        } else {
          GiveUp();
        }
        return false;
      }
      Do(InsertName(me));
      ok := true;
    }

    /** Commit, whose error says nothing about whether it took effect. */
    method FinishFile(i: nat, fate: FileFate) returns (ok: bool)
      requires Valid() && i < |files| && w.replicas[me] == Named(i)
      modifies this
      ensures Valid() && old(w.effects) <= w.effects && ok == !(fate.CommitFails? || fate.CommitUnanswered?)
      ensures w.replicas[me] == if ok then Checking(i + 1) else Failed
      ensures ok ==> |w.effects| == i + 1 && w.replicas == old(w.replicas)[me := Checking(i + 1)]
    {
      assert Behind(w.replicas[me], |w.effects|);
      match fate {
        case CommitFails => GiveUp();
        case CommitUnanswered => Do(CommitUnheard(me));
        case _ => Do(Commit(me));
      }
      ok := !(fate.CommitFails? || fate.CommitUnanswered?);
    }

    /** One file that the check did not find. Any statement may fail, and then Migrate returns at once. */
    method ApplyFile(i: nat, fate: FileFate, quiet: bool) returns (ok: bool)
      requires Valid() && i < |files| && w.replicas[me] == Opening(i)
      modifies this
      ensures Valid() && old(w.effects) <= w.effects
      ensures w.replicas[me] == if ok then Checking(i + 1) else Failed
      ensures quiet && fate.Fine? && NameFree(files, old(w), i) ==>
        ok && w.replicas == old(w.replicas)[me := Checking(i + 1)]
    {
      ok := OpenFile(i, fate, quiet);
      if ok {
        Others(quiet);
        ok := FinishFile(i, fate);
      }
    }

    /** One round of the loop: the check and, for a file that is not recorded, its transaction. */
    method OneFile(i: nat, fate: FileFate, quiet: bool) returns (ok: bool)
      requires Valid() && i < |files| && w.replicas[me] == Checking(i)
      modifies this
      ensures Valid() && old(w.effects) <= w.effects
      ensures w.replicas[me] == if ok then Checking(i + 1) else Failed
      ensures fate.Fine? && old(w.effects) == files ==> ok
      ensures quiet && fate.Fine? && NobodyElseNames(old(w), me) ==>
        ok && w.replicas == old(w.replicas)[me := Checking(i + 1)]
    {
      Others(quiet);
      RecordedFiles(files, w, i);
      if fate.CheckFails? {
        GiveUp();
        return false;
      }
      Do(Check(me));
      ok := true;
      if w.replicas[me].Opening? {
        ok := ApplyFile(i, fate, quiet);
      }
    }

    /** Migrate: nil only when every file is recorded, whatever the other replicas do meanwhile. Without
        failing statements it always succeeds on a migrated database, and on any other if no other
        replica takes part. */
    method Migrate(env: Env) returns (ok: bool)
      requires Valid() && Resting(w.replicas[me])
      modifies this
      ensures Valid() && old(w.effects) <= w.effects
      ensures w.replicas[me] == if ok then Done else Failed
      ensures ok ==> w.effects == files && w.recorded == Names(files)
      ensures AllFine(env, |files|) && old(w.effects) == files ==> ok
      ensures AllFine(env, |files|) && env.quiet && NobodyElseNames(old(w), me) ==>
        ok && w == World(Names(files), files, old(w.replicas)[me := Done])
    {
      Do(Begin(me));
      if !env.ready {
        GiveUp();
        return false;
      }
      for i := 0 to |files|
        invariant Valid() && w.replicas[me] == Checking(i) && old(w.effects) <= w.effects
        invariant env.quiet && AllFine(env, |files|) && NobodyElseNames(old(w), me) ==>
          w.replicas == old(w.replicas)[me := Checking(i)]
      {
        var next := OneFile(i, FateOf(env.fates, i), env.quiet);
        if !next {
          return false;
        }
      }
      Do(Check(me));
      ok := true;
    }
  }
}
