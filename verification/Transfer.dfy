/** The guarded budget transfer of the DML sample, run by any number of clients at
    once against one table. A commit succeeds only if the cells the attempt read
    have not changed since; every other attempt is aborted and starts afresh. */
module Transfer {
  const AMOUNT := 200000
  const MAX_SAFE := 0x1F_FFFF_FFFF_FFFF

  /** A marketing budget: no such row, SQL NULL, or an INT64. */
  datatype Cell = Missing | Null | Budget(n: int)

  /** How the sample's arithmetic and comparison read a cell: null counts as 0. */
  function Worth(c: Cell): int {
    if c.Budget? then c.n else 0
  }

  /** A cell with the number of commits that wrote it. */
  datatype Versioned = Versioned(cell: Cell, version: nat)

  /** `first` is album 1 of singer 1, `second` album 2 of singer 2. */
  datatype Store = Store(first: Versioned, second: Versioned)

  /** One of the two reads: its request is out, it returned, or its `then` threw. */
  datatype Slot = InFlight | Got(seen: Versioned) | Threw

  /** `Updating` has no update acknowledged yet, `HalfUpdated` the first one, and
      `Committing` both; the updates stay inside the transaction. */
  datatype Phase =
    | Reading(first: Slot, second: Slot)
    | Updating(sawFirst: Versioned, sawSecond: Versioned, firstBudget: int, secondBudget: int)
    | HalfUpdated(sawFirst: Versioned, sawSecond: Versioned, bufferFirst: int, secondBudget: int)
    | Committing(sawFirst: Versioned, sawSecond: Versioned, bufferFirst: int, bufferSecond: int)
    | Committed
    | Failed

  const FRESH := Reading(InFlight, InFlight)

  datatype System = System(store: Store, clients: seq<Phase>, commits: nat)

  /** One step of client `i`: a reply arrives, or its request is aborted (the
      runner calls the function again) or refused for good. */
  datatype Event =
    | FirstRead(i: nat)
    | SecondRead(i: nat)
    | FirstUpdate(i: nat)
    | SecondUpdate(i: nat)
    | Commit(i: nat)
    | Abort(i: nat)
    | Refuse(i: nat)

  /** Turning the row into JSON throws for a missing row and for an integer above
      the largest safe one. */
  predicate Readable(c: Cell) {
    !c.Missing? && (c.Budget? ==> c.n <= MAX_SAFE)
  }

  function ReadFirst(v: Versioned): Slot {
    if Readable(v.cell) then Got(v) else Threw
  }

  /** The second read also checks that the budget is large enough. */
  function ReadSecond(v: Versioned): Slot {
    if Readable(v.cell) && !(Worth(v.cell) < AMOUNT) then Got(v) else Threw
  }

  /** `Promise.all`: with both reads in, the budgets are moved between the local
      variables; with one that threw, the rest is skipped. */
  function AfterReads(first: Slot, second: Slot): Phase {
    if first.Got? && second.Got? then
      Updating(first.seen, second.seen, Worth(first.seen.cell) + AMOUNT, Worth(second.seen.cell) - AMOUNT)
    else Reading(first, second)
  }

  predicate Done(p: Phase) {
    p.Committed? || p.Failed?
  }

  /** An attempt that threw has a request out only if its other read is. */
  predicate HasRequestOut(p: Phase) {
    !Done(p) && (p.Reading? ==> p.first.InFlight? || p.second.InFlight?)
  }

  predicate Unchanged(seen: Versioned, now: Versioned) {
    seen.version == now.version
  }

  /** The database's part of a commit: the assumption that transactions serialize. */
  predicate MayCommit(s: Store, p: Phase) {
    p.Committing? && Unchanged(p.sawFirst, s.first) && Unchanged(p.sawSecond, s.second)
  }

  function Write(v: Versioned, n: int): Versioned {
    Versioned(Budget(n), v.version + 1)
  }

  function Moved(sys: System, i: nat, p: Phase): System
    requires i < |sys.clients|
  {
    sys.(clients := sys.clients[i := p])
  }

  /** An event that is not due changes nothing. */
  function Step(sys: System, ev: Event): System {
    if ev.i >= |sys.clients| then sys
    else
      var p := sys.clients[ev.i];
      match ev
      case FirstRead(i) =>
        if p.Reading? && p.first.InFlight? then
          Moved(sys, i, AfterReads(ReadFirst(sys.store.first), p.second))
        else sys
      case SecondRead(i) =>
        if p.Reading? && p.second.InFlight? then
          Moved(sys, i, AfterReads(p.first, ReadSecond(sys.store.second)))
        else sys
      case FirstUpdate(i) =>
        if p.Updating? then
          Moved(sys, i, HalfUpdated(p.sawFirst, p.sawSecond, p.firstBudget, p.secondBudget))
        else sys
      case SecondUpdate(i) =>
        if p.HalfUpdated? then
          Moved(sys, i, Committing(p.sawFirst, p.sawSecond, p.bufferFirst, p.secondBudget))
        else sys
      case Commit(i) =>
        if MayCommit(sys.store, p) then
          System(Store(Write(sys.store.first, p.bufferFirst), Write(sys.store.second, p.bufferSecond)),
                 sys.clients[i := Committed], sys.commits + 1)
        else if p.Committing? then Moved(sys, i, FRESH)
        else sys
      case Abort(i) => if HasRequestOut(p) then Moved(sys, i, FRESH) else sys
      case Refuse(i) => if HasRequestOut(p) then Moved(sys, i, Failed) else sys
  }

  function Run(sys: System, evs: seq<Event>): System
    decreases |evs|
  {
    if evs == [] then sys else Run(Step(sys, evs[0]), evs[1..])
  }

  function Begin(first: Cell, second: Cell, clients: nat): System {
    System(Store(Versioned(first, 0), Versioned(second, 0)), seq(clients, _ => FRESH), 0)
  }

  // ----- the invariant -----

  /** What was read was there at that version. */
  predicate Faithful(seen: Versioned, now: Versioned) {
    seen.version <= now.version && (seen.version == now.version ==> seen.cell == now.cell)
  }

  predicate SlotFaithful(slot: Slot, now: Versioned) {
    slot.Got? ==> Faithful(slot.seen, now)
  }

  /** The local budgets are the read ones with the amount moved, and the amount was
      there. */
  predicate PhaseOk(s: Store, p: Phase) {
    match p
    case Reading(first, second) =>
      && SlotFaithful(first, s.first) && SlotFaithful(second, s.second)
      && (second.Got? ==> Worth(second.seen.cell) >= AMOUNT)
      && !(first.Got? && second.Got?)
    case Updating(f, g, x, y) => Covered(s, f, g, x, y)
    case HalfUpdated(f, g, x, y) => Covered(s, f, g, x, y)
    case Committing(f, g, x, y) => Covered(s, f, g, x, y)
    case Committed => true
    case Failed => true
  }

  predicate Covered(s: Store, f: Versioned, g: Versioned, x: int, y: int) {
    && Faithful(f, s.first) && Faithful(g, s.second)
    && x == Worth(f.cell) + AMOUNT && y == Worth(g.cell) - AMOUNT
    && Worth(g.cell) >= AMOUNT
  }

  function CountCommitted(clients: seq<Phase>): nat {
    if clients == [] then 0
    else CountCommitted(clients[..|clients| - 1]) + (if clients[|clients| - 1].Committed? then 1 else 0)
  }

  predicate Conserved(first: Cell, second: Cell, sys: System) {
    var k := sys.commits;
    && Worth(sys.store.first.cell) == Worth(first) + AMOUNT * k
    && Worth(sys.store.second.cell) == Worth(second) - AMOUNT * k
    && (k > 0 ==> Worth(second) >= AMOUNT * k)
    && (k == 0 ==> sys.store.first.cell == first && sys.store.second.cell == second)
    && k == CountCommitted(sys.clients)
  }

  predicate Good(first: Cell, second: Cell, sys: System) {
    && Conserved(first, second, sys)
    && forall i :: 0 <= i < |sys.clients| ==> PhaseOk(sys.store, sys.clients[i])
  }

  lemma {:induction false} CountAfterMove(clients: seq<Phase>, i: nat, p: Phase)
    requires i < |clients| && !clients[i].Committed?
    ensures CountCommitted(clients[i := p]) == CountCommitted(clients) + (if p.Committed? then 1 else 0)
  {
    var n := |clients| - 1;
    if i < n {
      assert clients[i := p][..n] == clients[..n][i := p];
      CountAfterMove(clients[..n], i, p);
    } else {
      assert clients[i := p][..n] == clients[..n];
    }
  }

  /** A commit leaves what the others hold faithful, since it raises the versions. */
  lemma PhaseOkAfterCommit(s: Store, x: int, y: int, p: Phase)
    requires PhaseOk(s, p)
    ensures PhaseOk(Store(Write(s.first, x), Write(s.second, y)), p)
  {
  }

  lemma CommitKeepsGood(first: Cell, second: Cell, sys: System, i: nat)
    requires Good(first, second, sys) && i < |sys.clients| && MayCommit(sys.store, sys.clients[i])
    ensures Good(first, second, Step(sys, Commit(i)))
  {
    var p := sys.clients[i];
    var sys' := Step(sys, Commit(i));
    assert PhaseOk(sys.store, p);
    CountAfterMove(sys.clients, i, Committed);
    forall j | 0 <= j < |sys'.clients|
      ensures PhaseOk(sys'.store, sys'.clients[j])
    {
      assert PhaseOk(sys.store, sys.clients[j]);
      PhaseOkAfterCommit(sys.store, p.bufferFirst, p.bufferSecond, sys.clients[j]);
    }
  }

  /** Only a commit that may succeed touches the store; there both cells change. */
  lemma OnlyCommitWrites(sys: System, ev: Event)
    ensures var sys' := Step(sys, ev);
            sys'.store != sys.store <==>
            ev.Commit? && ev.i < |sys.clients| && MayCommit(sys.store, sys.clients[ev.i])
  {
  }

  lemma StepKeepsGood(first: Cell, second: Cell, sys: System, ev: Event)
    requires Good(first, second, sys)
    ensures Good(first, second, Step(sys, ev))
  {
    var sys' := Step(sys, ev);
    if sys' == sys {
    } else if ev.Commit? && MayCommit(sys.store, sys.clients[ev.i]) {
      CommitKeepsGood(first, second, sys, ev.i);
    } else {
      var p, p' := sys.clients[ev.i], sys'.clients[ev.i];
      assert PhaseOk(sys.store, p);
      assert sys' == Moved(sys, ev.i, p') && !p.Committed? && !p'.Committed?;
      CountAfterMove(sys.clients, ev.i, p');
      assert PhaseOk(sys.store, p');
    }
  }

  lemma {:induction false} RunKeepsGood(first: Cell, second: Cell, sys: System, evs: seq<Event>)
    requires Good(first, second, sys)
    ensures Good(first, second, Run(sys, evs))
    decreases |evs|
  {
    if evs != [] {
      StepKeepsGood(first, second, sys, evs[0]);
      RunKeepsGood(first, second, Step(sys, evs[0]), evs[1..]);
    }
  }

  lemma {:induction false} NoneCommittedYet(n: nat)
    ensures CountCommitted(seq(n, _ => FRESH)) == 0
  {
    if n > 0 {
      assert seq(n, _ => FRESH)[..n - 1] == seq(n - 1, _ => FRESH);
      NoneCommittedYet(n - 1);
    }
  }

  /** However the clients interleave, abort and start again: after k commits exactly
      k clients have made theirs, the first budget has grown and the second shrunk by
      200000 k, and the second could afford them all. */
  lemma EveryRunConserves(first: Cell, second: Cell, n: nat, evs: seq<Event>)
    ensures var sys := Run(Begin(first, second, n), evs);
            var k := CountCommitted(sys.clients);
            && sys.commits == k
            && Worth(sys.store.first.cell) == Worth(first) + 200000 * k
            && Worth(sys.store.second.cell) == Worth(second) - 200000 * k
            && (k > 0 ==> Worth(second) >= 200000 * k)
            && (k == 0 ==> sys.store == Begin(first, second, n).store)
            && (Worth(second) >= 0 ==> Worth(sys.store.second.cell) >= 0)
            && (Worth(second) < 200000 ==> sys.store == Begin(first, second, n).store)
  {
    NoneCommittedYet(n);
    RunKeepsGood(first, second, Begin(first, second, n), evs);
    StoreVersionsCountCommits(Begin(first, second, n), evs);
  }

  /** Each cell has been written once per commit: no run shows one half of a
      transfer without the other. */
  lemma {:induction false} StoreVersionsCountCommits(sys: System, evs: seq<Event>)
    requires sys.store.first.version == sys.store.second.version == sys.commits
    ensures var sys' := Run(sys, evs);
            sys'.store.first.version == sys'.store.second.version == sys'.commits
    decreases |evs|
  {
    if evs != [] {
      StoreVersionsCountCommits(Step(sys, evs[0]), evs[1..]);
    }
  }

  // ----- one attempt -----

  predicate SendsUpdates(p: Phase) {
    p.Updating? || p.HalfUpdated? || p.Committing?
  }

  predicate Stopped(p: Phase) {
    p.Reading? && (p.first.Threw? || p.second.Threw?)
  }

  /** An attempt stopped by a read that threw sends no update and commits nothing,
      whatever it and the others do next, unless its other read is aborted and the
      attempt is started afresh. */
  lemma {:induction false} StoppedNeverWrites(sys: System, i: nat, evs: seq<Event>)
    requires i < |sys.clients| && (Stopped(sys.clients[i]) || sys.clients[i].Failed?)
    requires Abort(i) !in evs
    ensures var sys' := Run(sys, evs);
            && |sys'.clients| == |sys.clients|
            && (Stopped(sys'.clients[i]) || sys'.clients[i].Failed?)
    decreases |evs|
  {
    if evs != [] {
      assert evs[0] != Abort(i);
      StoppedNeverWrites(Step(sys, evs[0]), i, evs[1..]);
    }
  }

  /** The budgets a transfer goes through with: the first row is there, with no
      budget or one that is a safe integer, and the second holds the amount in a safe
      integer. */
  predicate Transferable(first: Cell, second: Cell) {
    && (first.Null? || (first.Budget? && first.n <= 9007199254740991))
    && second.Budget? && 200000 <= second.n <= 9007199254740991
  }

  /** Either order of the two replies leads to the same state, in which updates are
      sent exactly when the budgets can be transferred; otherwise the attempt has
      stopped. */
  lemma ReadsInEitherOrder(sys: System, i: nat)
    requires i < |sys.clients| && sys.clients[i] == FRESH
    ensures Step(Step(sys, FirstRead(i)), SecondRead(i)) == Step(Step(sys, SecondRead(i)), FirstRead(i))
    ensures var sys' := Step(Step(sys, FirstRead(i)), SecondRead(i));
            && |sys'.clients| == |sys.clients| && sys'.store == sys.store
            && (SendsUpdates(sys'.clients[i]) <==> Transferable(sys.store.first.cell, sys.store.second.cell))
            && (SendsUpdates(sys'.clients[i]) || Stopped(sys'.clients[i]))
  {
    var a, b := Step(sys, FirstRead(i)), Step(sys, SecondRead(i));
    assert Step(a, SecondRead(i)).clients == sys.clients[i := Step(a, SecondRead(i)).clients[i]];
    assert Step(b, FirstRead(i)).clients == sys.clients[i := Step(b, FirstRead(i)).clients[i]];
  }

  /** What a client's replies are when none is lost, with the reads in either order. */
  function Undisturbed(i: nat, firstComesFirst: bool): seq<Event> {
    (if firstComesFirst then [FirstRead(i), SecondRead(i)] else [SecondRead(i), FirstRead(i)]) +
    [FirstUpdate(i), SecondUpdate(i), Commit(i)]
  }

  lemma {:induction false} RunFive(sys: System, a: Event, b: Event, c: Event, d: Event, e: Event)
    ensures Run(sys, [a, b, c, d, e]) == Step(Step(Step(Step(Step(sys, a), b), c), d), e)
  {
    assert [a, b, c, d, e][1..] == [b, c, d, e] && [b, c, d, e][1..] == [c, d, e];
    assert [c, d, e][1..] == [d, e] && [d, e][1..] == [e] && [e][1..] == [];
    var sys2 := Step(Step(sys, a), b);
    assert Run(sys, [a, b, c, d, e]) == Run(sys2, [c, d, e]);
    assert Run(sys2, [c, d, e]) == Run(Step(Step(sys2, c), d), [e]);
  }

  /** From both reads on, if they let the updates through. */
  lemma {:induction false} FromUpdates(sys: System, i: nat)
    requires i < |sys.clients| && sys.clients[i].Updating?
    requires sys.clients[i].sawFirst == sys.store.first && sys.clients[i].sawSecond == sys.store.second
    ensures var p, sys' := sys.clients[i], Step(Step(Step(sys, FirstUpdate(i)), SecondUpdate(i)), Commit(i));
            sys'.clients == sys.clients[i := Committed] &&
            sys'.store.first.cell == Budget(p.firstBudget) && sys'.store.second.cell == Budget(p.secondBudget)
  {
  }

  /** A client that starts, or starts again, and is left undisturbed commits exactly
      when the budgets it finds can be transferred, whatever the others have done
      before. It then moves 200000 from the second to the first, and otherwise the
      store stays as it is. */
  lemma {:induction false} FreshCommitsIff(sys: System, i: nat, firstComesFirst: bool)
    requires i < |sys.clients| && sys.clients[i] == FRESH
    ensures var now, sys' := sys.store, Run(sys, Undisturbed(i, firstComesFirst));
            && |sys'.clients| == |sys.clients|
            && (sys'.clients[i].Committed? <==> Transferable(now.first.cell, now.second.cell))
            && (if Transferable(now.first.cell, now.second.cell) then
                  && sys'.store.first.cell == Budget(200000 + if now.first.cell.Null? then 0 else now.first.cell.n)
                  && sys'.store.second.cell == Budget(now.second.cell.n - 200000)
                else sys'.store == now)
  {
    var read := Step(Step(sys, FirstRead(i)), SecondRead(i));
    var a, b := if firstComesFirst then FirstRead(i) else SecondRead(i),
                if firstComesFirst then SecondRead(i) else FirstRead(i);
    ReadsInEitherOrder(sys, i);
    assert Undisturbed(i, firstComesFirst) == [a, b, FirstUpdate(i), SecondUpdate(i), Commit(i)];
    RunFive(sys, a, b, FirstUpdate(i), SecondUpdate(i), Commit(i));
    if SendsUpdates(read.clients[i]) {
      FromUpdates(read, i);
    }
  }

  /** A client whose commit is lost, because another one has written a budget since it
      was read, or whose request is aborted, starts again; left undisturbed from then
      on, it commits exactly when the current budgets can be transferred. */
  lemma {:induction false} RestartedCommitsIff(first: Cell, second: Cell, sys: System, i: nat, ev: Event, firstComesFirst: bool)
    requires Good(first, second, sys) && i < |sys.clients|
    requires
      var p := sys.clients[i];
      || (ev == Commit(i) && p.Committing? &&
          (p.sawFirst.version != sys.store.first.version || p.sawSecond.version != sys.store.second.version))
      || (ev == Abort(i) && (p.Reading? ==> p.first.InFlight? || p.second.InFlight?) && !p.Committed? && !p.Failed?)
    ensures var now, sys' := sys.store, Run(sys, [ev] + Undisturbed(i, firstComesFirst));
            && Good(first, second, sys') && |sys'.clients| == |sys.clients|
            && (sys'.clients[i].Committed? <==> Transferable(now.first.cell, now.second.cell))
            && (if Transferable(now.first.cell, now.second.cell) then
                  && sys'.store.first.cell == Budget(200000 + if now.first.cell.Null? then 0 else now.first.cell.n)
                  && sys'.store.second.cell == Budget(now.second.cell.n - 200000)
                else sys'.store == now)
  {
    var evs := [ev] + Undisturbed(i, firstComesFirst);
    RunKeepsGood(first, second, sys, evs);
    assert evs[1..] == Undisturbed(i, firstComesFirst);
    FreshCommitsIff(Step(sys, ev), i, firstComesFirst);
  }

  // ----- others that do not commit do not disturb -----

  function Own(evs: seq<Event>, i: nat): seq<Event> {
    if evs == [] then [] else (if evs[0].i == i then [evs[0]] else []) + Own(evs[1..], i)
  }

  /** Two systems that look the same to client `i`. */
  predicate SameTo(a: System, b: System, i: nat) {
    a.store == b.store && i < |a.clients| == |b.clients| && a.clients[i] == b.clients[i]
  }

  /** As long as the others do not commit, a client runs as if it had the table to
      itself. */
  lemma {:induction false} OthersDoNotDisturb(a: System, b: System, i: nat, evs: seq<Event>)
    requires SameTo(a, b, i) && forall ev :: ev in evs && ev.Commit? ==> ev.i == i
    ensures SameTo(Run(a, evs), Run(b, Own(evs, i)), i)
    decreases |evs|
  {
    if evs != [] {
      if evs[0].i == i {
        assert Own(evs, i)[0] == evs[0] && Own(evs, i)[1..] == Own(evs[1..], i);
        OthersDoNotDisturb(Step(a, evs[0]), Step(b, evs[0]), i, evs[1..]);
      } else {
        assert evs[0] in evs && Own(evs, i) == Own(evs[1..], i);
        OthersDoNotDisturb(Step(a, evs[0]), b, i, evs[1..]);
      }
    }
  }

  /** So in every interleaving in which a fresh client gets its replies in order and no
      other commits meanwhile, it commits exactly when the budgets can be transferred. */
  lemma {:induction false} AmongOthersCommitsIff(sys: System, i: nat, evs: seq<Event>, firstComesFirst: bool)
    requires i < |sys.clients| && sys.clients[i] == FRESH
    requires Own(evs, i) == Undisturbed(i, firstComesFirst)
    requires forall ev :: ev in evs && ev.Commit? ==> ev.i == i
    ensures var now, sys' := sys.store, Run(sys, evs);
            && |sys'.clients| == |sys.clients|
            && (sys'.clients[i].Committed? <==> Transferable(now.first.cell, now.second.cell))
            && (if Transferable(now.first.cell, now.second.cell) then
                  && sys'.store.first.cell == Budget(200000 + if now.first.cell.Null? then 0 else now.first.cell.n)
                  && sys'.store.second.cell == Budget(now.second.cell.n - 200000)
                else sys'.store == now)
  {
    OthersDoNotDisturb(sys, sys, i, evs);
    FreshCommitsIff(sys, i, firstComesFirst);
  }

  /** A client that has a request out and is refused for good never commits, whatever
      it and the others do next. */
  lemma {:induction false} RefusedNeverCommits(sys: System, i: nat, evs: seq<Event>)
    requires i < |sys.clients| && !sys.clients[i].Committed?
    requires var p := sys.clients[i]; p.Reading? ==> p.first.InFlight? || p.second.InFlight?
    ensures var sys' := Run(sys, [Refuse(i)] + evs);
            |sys'.clients| == |sys.clients| && sys'.clients[i].Failed?
  {
    assert ([Refuse(i)] + evs)[1..] == evs;
    FailedStays(Step(sys, Refuse(i)), i, evs);
  }

  lemma {:induction false} FailedStays(sys: System, i: nat, evs: seq<Event>)
    requires i < |sys.clients| && sys.clients[i].Failed?
    ensures |Run(sys, evs).clients| == |sys.clients| && Run(sys, evs).clients[i].Failed?
    decreases |evs|
  {
    if evs != [] {
      FailedStays(Step(sys, evs[0]), i, evs[1..]);
    }
  }

  /** One client alone, with every reply in order: 200000 is moved and the client has
      committed exactly when the budgets can be transferred, and otherwise nothing is. */
  lemma AloneItTransfers(first: Cell, second: Cell)
    ensures var ready := Step(Step(Begin(first, second, 1), FirstRead(0)), SecondRead(0));
            var sys := Step(Step(Step(ready, FirstUpdate(0)), SecondUpdate(0)), Commit(0));
            if Transferable(first, second) then
              && sys.clients == [Committed]
              && sys.store.first.cell == Budget(200000 + if first.Null? then 0 else first.n)
              && sys.store.second.cell == Budget(second.n - 200000)
            else
              Stopped(sys.clients[0]) && sys.store == Begin(first, second, 1).store
  {
    ReadsInEitherOrder(Begin(first, second, 1), 0);
  }
}
