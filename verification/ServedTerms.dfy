/** Authority terms over the life of a store: every start serves a greater term than any start before it
    (`begin_incarnation` of src/runtime/coordinator.cpp over src/store/durable_store.cpp). */
module ServedTerms {
  import opened Model
  import opened Wire
  import opened Mutations
  import opened Wal
  import opened Snapshots
  import opened Stores

  // ---- the term a log leaves behind ----

  /** The payload of a mutation record says that it sets the term. */
  predicate SetsMeta(b: Bytes) {
    TakeU16(b).Success? && TakeU16(b).value.0 == 15
  }

  /** The term a record sets, read off its bytes. */
  function TermOf(t: nat, r: Record): nat {
    if r.kind == KIND_MUTATION then if SetsMeta(r.payload) then TermIn(t, TakeU16(r.payload).value.1) else t
    else if r.kind == KIND_META then TermIn(t, r.payload)
    else t
  }

  function TermIn(t: nat, b: Bytes): nat {
    match TakeU64(b)
    case Success((term, _)) => term
    case Failure(_) => t
  }

  function LastTerm(t: nat, rs: seq<Record>): nat
    decreases |rs|
  {
    if rs == [] then t else TermOf(LastTerm(t, rs[..|rs| - 1]), rs[|rs| - 1])
  }

  /** What the format makes of a payload: a term no greater than the bound, or some other mutation. */
  ghost predicate ReadAs(b: Bytes, m: Mutation) {
    if SetsMeta(b) then m.MetaSet? && forall t: nat :: TermIn(t, TakeU16(b).value.1) == m.term <= MAX_GENERATION
    else !m.MetaSet?
  }

  ghost predicate TermsReadBack(f: Format) {
    forall b :: f.decode(b).Success? ==> ReadAs(b, f.decode(b).value.0)
  }

  lemma {:induction false} MetaTerm(b: Bytes, t: nat)
    requires DecodeMeta(b).Success?
    ensures DecodeMeta(b).value.0.MetaSet? && DecodeMeta(b).value.0.term == TermIn(t, b) <= MAX_GENERATION
  {
  }

  lemma {:induction false} VisitTerm(f: Format, x: Recovery, r: Record)
    requires TermsReadBack(f) && VisitRecord(f, x, r).Success?
    ensures VisitRecord(f, x, r).value.term == TermOf(x.term, r)
    ensures VisitRecord(f, x, r).value.term == x.term || VisitRecord(f, x, r).value.term <= MAX_GENERATION
  {
    if r.kind == KIND_META { MetaTerm(r.payload, x.term); }
    if r.kind == KIND_MUTATION { assert ReadAs(r.payload, f.decode(r.payload).value.0); }
  }

  lemma {:induction false} VisitedTerm(f: Format, x: Recovery, rs: seq<Record>)
    requires TermsReadBack(f) && Visit(Visitor(f), x, rs).Success?
    ensures Visit(Visitor(f), x, rs).value.term == LastTerm(x.term, rs)
    decreases |rs|
  {
    if rs != [] {
      var before, r := rs[..|rs| - 1], rs[|rs| - 1];
      assert rs == before + [r];
      VisitExtends(Visitor(f), x, before, r);
      VisitedTerm(f, x, before);
      VisitTerm(f, Visit(Visitor(f), x, before).value, r);
    }
  }

  /** A log read over a snapshot that already has its last term leaves that term. */
  lemma {:induction false} LastTermAgain(t: nat, rs: seq<Record>, u: nat)
    ensures LastTerm(u, rs) == LastTerm(t, rs) || (LastTerm(u, rs) == u && LastTerm(t, rs) == t)
    decreases |rs|
  {
    if rs != [] { LastTermAgain(t, rs[..|rs| - 1], u); }
  }

  // ---- one store over many lives ----

  /** `acked` records are durable for good; `served` are the terms of the starts so far. */
  datatype Life = Life(store: Store, acked: nat, served: seq<nat>)

  /** A logged payload is any that does not set the term, whether or not it could be read back. */
  datatype LifeStep =
    | Starts(at: nat, incarnation: Uuid)
    | Logs(payload: Bytes, logAt: nat, ack: bool)
    | Remarks(text: Bytes, remarkAt: nat, ack: bool)
    | Saves(registry: Registry, meta: Meta)
    | Empties(registry: Registry, meta: Meta, stream: Uuid)
    | Tears(keep: nat)

  /** The next term, which saturates. */
  function NextTerm(t: nat): (n: nat)
    ensures n < U64
  {
    if t < UINT64_MAX then t + 1 else UINT64_MAX
  }

  function MetaPayload(t: nat, incarnation: Uuid): Bytes
    requires t < U64 && incarnation < U128
  {
    PutU16(15, PutU64(t, PutUuid(incarnation, [])))
  }

  ghost predicate Recovers(f: Format, s: Store, x: Recovery) {
    Base(f, s.snapshot).Success? && Visit(Visitor(f), Base(f, s.snapshot).value, s.log) == Success(x)
  }

  /** A serving process saves under the term it serves. */
  predicate CanSave(f: Format, l: Life, r: Registry, m: Meta) {
    l.served != [] && m.term == l.served[|l.served| - 1] && f.save(m, r).Some?
  }

  ghost predicate CanStep(f: Format, l: Life, step: LifeStep) {
    match step
    case Starts(_, incarnation) => incarnation < U128 && exists x :: Recovers(f, l.store, x)
    case Logs(b, _, _) => !SetsMeta(b)
    case Remarks(_, _, _) => true
    case Saves(r, m) => CanSave(f, l, r, m) && Base(f, l.store.snapshot).Success?
    case Empties(r, m, _) => CanSave(f, l, r, m)
    case Tears(k) => l.acked <= k <= |l.store.log|
  }

  function Logged(l: Life, kind: nat, at: nat, payload: Bytes, ack: bool): Life {
    var s := AppendRecord(l.store, kind, at, payload);
    l.(store := s, acked := if ack then |s.log| else l.acked)
  }

  /** A start writes its term before it serves it. */
  function Served(l: Life, t: nat, at: nat, incarnation: Uuid): Life
    requires t < U64 && incarnation < U128
  {
    Logged(l, KIND_MUTATION, at, MetaPayload(t, incarnation), true).(served := l.served + [t])
  }

  /** A crash keeps what was acknowledged. */
  ghost function Step(f: Format, l: Life, step: LifeStep): Life
    requires CanStep(f, l, step)
  {
    match step
    case Starts(at, incarnation) =>
      var x :| Recovers(f, l.store, x);
      Served(l, NextTerm(x.term), at, incarnation)
    case Logs(b, at, ack) => Logged(l, KIND_MUTATION, at, b, ack)
    case Remarks(text, at, ack) => Logged(l, KIND_INCIDENT, at, text, ack)
    case Saves(r, m) => l.(store := Saved(l.store, f.save(m, r).value), acked := |l.store.log|)
    case Empties(r, m, stream) => l.(store := Compact(l.store, f.save(m, r).value, stream), acked := 0)
    case Tears(k) => l.(store := l.store.(log := l.store.log[..k]))
  }

  function BaseTerm(f: Format, snapshot: Option<Bytes>): Option<nat> {
    match Base(f, snapshot)
    case Success(x) => Some(x.term)
    case Failure(_) => None
  }

  /** Whatever a crash leaves, the last served term is what recovery finds. */
  predicate Durable(f: Format, l: Life) {
    DurableOver(BaseTerm(f, l.store.snapshot), l.store.log, l.acked, l.served)
  }

  predicate DurableOver(base: Option<nat>, log: seq<Record>, acked: nat, served: seq<nat>) {
    acked <= |log| && (served != [] && base.Some? ==> TermKept(base.value, log, acked, served[|served| - 1]))
  }

  predicate TermKept(base: nat, log: seq<Record>, acked: nat, t: nat)
    requires acked <= |log|
  {
    forall k | acked <= k <= |log| :: LastTerm(base, log[..k]) == t
  }

  /** Every start serves the next term after the one before it. */
  predicate Consecutive(served: seq<nat>) {
    forall i | 0 < i < |served| :: served[i] == NextTerm(served[i - 1])
  }

  lemma {:induction false} ExtendKeepsTerm(base: nat, log: seq<Record>, acked: nat, t: nat, r: Record)
    requires acked <= |log| && TermKept(base, log, acked, t) && TermOf(t, r) == t
    ensures TermKept(base, log + [r], acked, t)
  {
    forall k | acked <= k <= |log| + 1 ensures LastTerm(base, (log + [r])[..k]) == t {
      if k <= |log| {
        assert (log + [r])[..k] == log[..k];
      } else {
        assert (log + [r])[..k] == log + [r] && (log + [r])[..|log|] == log && log[..|log|] == log;
      }
    }
  }

  lemma {:induction false} MetaSetsTerm(t: nat, incarnation: Uuid, sequence: nat, at: nat, before: nat)
    requires t < U64 && incarnation < U128
    ensures SetsMeta(MetaPayload(t, incarnation))
    ensures TermOf(before, Record(KIND_MUTATION, sequence, at, MetaPayload(t, incarnation))) == t
  {
    assert TakeU16(MetaPayload(t, incarnation)) == Success((15, PutU64(t, PutUuid(incarnation, []))));
    assert TakeU64(PutU64(t, PutUuid(incarnation, []))) == Success((t, PutUuid(incarnation, [])));
  }

  /** Whatever the log holds, a record that sets the term last wins. */
  lemma {:induction false} LastRecordWins(base: nat, log: seq<Record>, r: Record, t: nat)
    requires forall u: nat :: TermOf(u, r) == t
    ensures TermKept(base, log + [r], |log| + 1, t)
  {
    assert (log + [r])[..|log| + 1] == log + [r] && (log + [r])[..|log|] == log;
  }

  /** Recovery finds the last served term. */
  lemma {:induction false} FindsServedTerm(f: Format, l: Life, x: Recovery)
    requires TermsReadBack(f) && Durable(f, l) && Recovers(f, l.store, x) && l.served != []
    ensures x.term == l.served[|l.served| - 1]
  {
    var base := Base(f, l.store.snapshot).value;
    VisitedTerm(f, base, l.store.log);
    assert l.store.log[..|l.store.log|] == l.store.log;
  }

  lemma {:induction false} SaveKeepsTerm(base: nat, log: seq<Record>, acked: nat, t: nat)
    requires acked <= |log| && TermKept(base, log, acked, t)
    ensures TermKept(t, log, |log|, t)
  {
    assert log[..|log|] == log;
    LastTermAgain(base, log, t);
  }

  lemma {:induction false} ServedIsDurable(f: Format, l: Life, t: nat, at: nat, incarnation: Uuid)
    requires t < U64 && incarnation < U128
    ensures Durable(f, Served(l, t, at, incarnation))
  {
    var r := Record(KIND_MUTATION, l.store.next, at, MetaPayload(t, incarnation));
    forall u: nat ensures TermOf(u, r) == t { MetaSetsTerm(t, incarnation, l.store.next, at, u); }
    var base := BaseTerm(f, l.store.snapshot);
    if base.Some? { LastRecordWins(base.value, l.store.log, r, t); }
  }

  lemma {:induction false} OneMore(served: seq<nat>, t: nat)
    requires Consecutive(served) && (served != [] ==> t == NextTerm(served[|served| - 1]))
    ensures Consecutive(served + [t])
  {
  }

  lemma {:induction false} StartStep(f: Format, l: Life, step: LifeStep)
    requires TermsReadBack(f) && Durable(f, l) && Consecutive(l.served) && CanStep(f, l, step) && step.Starts?
    ensures Durable(f, Step(f, l, step)) && Consecutive(Step(f, l, step).served)
  {
    var x :| Recovers(f, l.store, x) && Step(f, l, step) == Served(l, NextTerm(x.term), step.at, step.incarnation);
    ServedIsDurable(f, l, NextTerm(x.term), step.at, step.incarnation);
    if l.served != [] { FindsServedTerm(f, l, x); }
    OneMore(l.served, NextTerm(x.term));
  }

  lemma {:induction false} FewerCuts(base: nat, log: seq<Record>, acked: nat, more: nat, t: nat)
    requires acked <= more <= |log| && TermKept(base, log, acked, t)
    ensures TermKept(base, log, more, t)
  {
  }

  lemma {:induction false} LogExtends(
      base: Option<nat>, log: seq<Record>, acked: nat, served: seq<nat>, r: Record, ack: bool)
    requires DurableOver(base, log, acked, served) && forall t: nat :: TermOf(t, r) == t
    ensures DurableOver(base, log + [r], if ack then |log| + 1 else acked, served)
  {
    if served != [] && base.Some? {
      ExtendKeepsTerm(base.value, log, acked, served[|served| - 1], r);
      FewerCuts(base.value, log + [r], acked, |log| + 1, served[|served| - 1]);
    }
  }

  lemma {:induction false} LogStep(f: Format, l: Life, kind: nat, at: nat, payload: Bytes, ack: bool)
    requires Durable(f, l) && (kind == KIND_INCIDENT || (kind == KIND_MUTATION && !SetsMeta(payload)))
    ensures Durable(f, Logged(l, kind, at, payload, ack))
  {
    var r := Record(kind, l.store.next, at, payload);
    assert forall t: nat :: TermOf(t, r) == t;
    LogExtends(BaseTerm(f, l.store.snapshot), l.store.log, l.acked, l.served, r, ack);
  }

  lemma {:induction false} SavedTerm(f: Format, m: Meta, r: Registry)
    requires SnapshotsReadBack(f) && f.save(m, r).Some?
    ensures BaseTerm(f, Some(f.save(m, r).value)) == Some(m.term)
  {
  }

  lemma {:induction false} SaveStep(base: nat, log: seq<Record>, acked: nat, served: seq<nat>)
    requires served != [] && DurableOver(Some(base), log, acked, served)
    ensures DurableOver(Some(served[|served| - 1]), log, |log|, served)
  {
    SaveKeepsTerm(base, log, acked, served[|served| - 1]);
  }

  lemma {:induction false} EmptyStep(served: seq<nat>)
    requires served != []
    ensures DurableOver(Some(served[|served| - 1]), [], 0, served)
  {
    var none: seq<Record> := [];
    assert none[..0] == [];
  }

  lemma {:induction false} TearStep(base: Option<nat>, log: seq<Record>, acked: nat, served: seq<nat>, k: nat)
    requires DurableOver(base, log, acked, served) && acked <= k <= |log|
    ensures DurableOver(base, log[..k], acked, served)
  {
    if served != [] && base.Some? {
      forall j | acked <= j <= k ensures LastTerm(base.value, log[..k][..j]) == served[|served| - 1] {
        assert log[..k][..j] == log[..j];
      }
    }
  }

  lemma {:induction false} StepKeepsDurable(f: Format, l: Life, step: LifeStep)
    requires TermsReadBack(f) && SnapshotsReadBack(f) && Durable(f, l) && Consecutive(l.served) && CanStep(f, l, step)
    ensures Durable(f, Step(f, l, step)) && Consecutive(Step(f, l, step).served)
  {
    match step
    case Starts(_, _) => StartStep(f, l, step);
    case Logs(b, at, ack) => LogStep(f, l, KIND_MUTATION, at, b, ack);
    case Remarks(text, at, ack) => LogStep(f, l, KIND_INCIDENT, at, text, ack);
    case Saves(r, m) =>
      SavedTerm(f, m, r);
      SaveStep(BaseTerm(f, l.store.snapshot).value, l.store.log, l.acked, l.served);
    case Empties(r, m, _) =>
      SavedTerm(f, m, r);
      EmptyStep(l.served);
    case Tears(k) => TearStep(BaseTerm(f, l.store.snapshot), l.store.log, l.acked, l.served, k);
  }

  // ---- every history of a store ----

  ghost predicate Lives(f: Format, l: Life, step: LifeStep, m: Life) {
    CanStep(f, l, step) && m == Step(f, l, step)
  }

  /** Any store to begin with, and one step after the other. */
  ghost predicate IsLife(f: Format, lives: seq<Life>, steps: seq<LifeStep>) {
    && |lives| == |steps| + 1 && lives[0].served == [] && lives[0].acked <= |lives[0].store.log|
    && forall i {:trigger steps[i]} | 0 <= i < |steps| :: Lives(f, lives[i], steps[i], lives[i + 1])
  }

  lemma {:induction false} LifeIsDurable(f: Format, lives: seq<Life>, steps: seq<LifeStep>, i: nat)
    requires TermsReadBack(f) && SnapshotsReadBack(f) && IsLife(f, lives, steps) && i < |lives|
    ensures Durable(f, lives[i]) && Consecutive(lives[i].served)
    decreases i
  {
    if i > 0 {
      LifeIsDurable(f, lives, steps, i - 1);
      assert Lives(f, lives[i - 1], steps[i - 1], lives[i]);
      StepKeepsDurable(f, lives[i - 1], steps[i - 1]);
    }
  }

  /** Over any sequence of starts, appends, compactions, crashes between saving and emptying, and torn
      unacknowledged writes, each start serves a term greater than the one before exactly when that one was
      not yet the largest 64-bit number, and the same again otherwise. */
  lemma {:induction false} TermsRise(f: Format, lives: seq<Life>, steps: seq<LifeStep>, i: nat, k: nat)
    requires TermsReadBack(f) && SnapshotsReadBack(f) && IsLife(f, lives, steps) && i < |lives|
    requires 0 < k < |lives[i].served|
    ensures var served := lives[i].served;
            && (served[k - 1] < served[k] <==> served[k - 1] < UINT64_MAX)
            && served[k] == if served[k - 1] < UINT64_MAX then served[k - 1] + 1 else UINT64_MAX
  {
    LifeIsDurable(f, lives, steps, i);
  }

  // ---- terms that replay refuses ----

  /** The record sets a term that replay refuses, whatever the term was before. */
  ghost predicate Blocks(r: Record) {
    r.kind == KIND_MUTATION && SetsMeta(r.payload) && forall t: nat :: TermOf(t, r) > MAX_GENERATION
  }

  lemma {:induction false} ReadableIsBounded(f: Format, x: Recovery, r: Record)
    requires TermsReadBack(f) && VisitRecord(f, x, r).Success? && r.kind == KIND_MUTATION && SetsMeta(r.payload)
    ensures TermOf(0, r) <= MAX_GENERATION
  {
    assert ReadAs(r.payload, f.decode(r.payload).value.0);
  }

  lemma {:induction false} BlockedVisit(f: Format, x: Recovery, r: Record)
    requires TermsReadBack(f) && Blocks(r)
    ensures VisitRecord(f, x, r).Failure?
  {
    assert TermOf(0, r) > MAX_GENERATION;
    if VisitRecord(f, x, r).Success? { ReadableIsBounded(f, x, r); }
  }

  lemma {:induction false} BlockedLog(f: Format, x: Recovery, log: seq<Record>, p: nat)
    requires TermsReadBack(f) && p < |log| && Blocks(log[p])
    ensures Visit(Visitor(f), x, log).Failure?
    decreases |log|
  {
    if p == 0 {
      BlockedVisit(f, x, log[0]);
    } else if VisitRecord(f, x, log[0]).Success? {
      BlockedLog(f, VisitRecord(f, x, log[0]).value, log[1..], p - 1);
    }
  }

  /** An acknowledged record of the log blocks every start. */
  ghost predicate Blocked(l: Life) {
    l.acked <= |l.store.log| && exists p: nat :: p < l.acked && Blocks(l.store.log[p])
  }

  lemma {:induction false} HighTermBlocks(l: Life, t: nat, at: nat, incarnation: Uuid)
    requires MAX_GENERATION < t < U64 && incarnation < U128
    ensures Blocked(Served(l, t, at, incarnation))
  {
    var s := Served(l, t, at, incarnation);
    var p := |l.store.log|;
    forall u: nat ensures TermOf(u, s.store.log[p]) == t { MetaSetsTerm(t, incarnation, l.store.next, at, u); }
    assert Blocks(s.store.log[p]);
  }

  lemma {:induction false} BlockedStays(f: Format, l: Life, step: LifeStep)
    requires TermsReadBack(f) && Blocked(l) && CanStep(f, l, step) && !step.Empties?
    ensures Blocked(Step(f, l, step)) && !step.Starts?
  {
    var p: nat :| p < l.acked && Blocks(l.store.log[p]);
    if step.Starts? {
      var x :| Recovers(f, l.store, x);
      BlockedLog(f, Base(f, l.store.snapshot).value, l.store.log, p);
      assert false;
    } else {
      assert Step(f, l, step).store.log[p] == l.store.log[p];
    }
  }

  lemma {:induction false} BlockedUntilEmptied(f: Format, lives: seq<Life>, steps: seq<LifeStep>, i: nat, j: nat)
    requires TermsReadBack(f) && IsLife(f, lives, steps) && i <= j < |lives| && Blocked(lives[i])
    requires forall k | i <= k < j :: !steps[k].Empties?
    ensures Blocked(lives[j])
    decreases j
  {
    if i < j {
      BlockedUntilEmptied(f, lives, steps, i, j - 1);
      assert Lives(f, lives[j - 1], steps[j - 1], lives[j]);
      BlockedStays(f, lives[j - 1], steps[j - 1]);
    }
  }

  /** A start that serves a term above the bound on generations writes a record no later start can read: the
      next start succeeds only after a compaction that emptied the log. */
  lemma {:induction false} HighTermNeedsCompaction(f: Format, lives: seq<Life>, steps: seq<LifeStep>, i: nat, j: nat)
    requires TermsReadBack(f) && IsLife(f, lives, steps) && i < j < |steps| && steps[i].Starts? && steps[j].Starts?
    requires var served := lives[i + 1].served; served != [] && served[|served| - 1] > MAX_GENERATION
    ensures exists k | i < k < j :: steps[k].Empties?
  {
    assert Lives(f, lives[i], steps[i], lives[i + 1]);
    var x :| Recovers(f, lives[i].store, x)
      && lives[i + 1] == Served(lives[i], NextTerm(x.term), steps[i].at, steps[i].incarnation);
    HighTermBlocks(lives[i], NextTerm(x.term), steps[i].at, steps[i].incarnation);
    if forall k | i < k < j :: !steps[k].Empties? {
      BlockedUntilEmptied(f, lives, steps, i + 1, j);
      assert Lives(f, lives[j], steps[j], lives[j + 1]);
      BlockedStays(f, lives[j], steps[j]);
    }
  }

  // ---- a history that reaches the largest term ----

  /** A store as a compaction leaves it. */
  function JustSaved(f: Format, m: Meta, r: Registry): Life
    requires f.save(m, r).Some?
  {
    Life(Store(Some(f.save(m, r).value), 0, [], 1), 0, [])
  }

  lemma {:induction false} StartsAt(f: Format, l: Life, t: nat, at: nat, incarnation: Uuid)
    requires Base(f, l.store.snapshot).Success? && l.store.log == [] && incarnation < U128
    requires Base(f, l.store.snapshot).value.term == t
    ensures Lives(f, l, Starts(at, incarnation), Served(l, NextTerm(t), at, incarnation))
  {
    assert Recovers(f, l.store, Base(f, l.store.snapshot).value);
  }

  lemma {:induction false} LifeGoesOn(f: Format, lives: seq<Life>, steps: seq<LifeStep>, s: LifeStep, b: Life)
    returns (after: seq<Life>, more: seq<LifeStep>)
    requires IsLife(f, lives, steps) && Lives(f, lives[|steps|], s, b)
    ensures IsLife(f, after, more) && after == lives + [b] && |more| == |steps| + 1
  {
    after, more := lives + [b], steps + [s];
    forall i {:trigger more[i]} | 0 <= i < |more| ensures Lives(f, after[i], more[i], after[i + 1]) {
      if i < |steps| { assert steps[i] == more[i]; }
    }
  }

  lemma {:induction false} LifeBegins(f: Format, a: Life) returns (lives: seq<Life>, steps: seq<LifeStep>)
    requires a.served == [] && a.acked <= |a.store.log|
    ensures IsLife(f, lives, steps) && lives == [a] && steps == []
  {
    lives, steps := [a], [];
  }

  lemma {:induction false} EmptiesAt(f: Format, l: Life, r: Registry, m: Meta, stream: Uuid)
    requires CanSave(f, l, r, m)
    ensures Lives(f, l, Empties(r, m, stream), l.(store := Compact(l.store, f.save(m, r).value, stream), acked := 0))
  {
  }

  /** Start, compact, start again. */
  lemma {:induction false} TwoStarts(f: Format, r: Registry, below: Meta, last: Meta)
    returns (lives: seq<Life>, steps: seq<LifeStep>)
    requires SnapshotsReadBack(f) && f.save(below, r).Some? && f.save(last, r).Some?
    requires last.term == NextTerm(below.term)
    ensures IsLife(f, lives, steps) && |lives| == 4 && lives[3].served == [last.term, NextTerm(last.term)]
  {
    var first := JustSaved(f, below, r);
    SavedTerm(f, below, r);
    StartsAt(f, first, below.term, 0, 1);
    var serving := Served(first, last.term, 0, 1);
    var emptied := serving.(store := Compact(serving.store, f.save(last, r).value, 0), acked := 0);
    EmptiesAt(f, serving, r, last, 0);
    SavedTerm(f, last, r);
    StartsAt(f, emptied, last.term, 0, 2);
    var again := Served(emptied, NextTerm(last.term), 0, 2);
    lives, steps := LifeBegins(f, first);
    lives, steps := LifeGoesOn(f, lives, steps, Starts(0, 1), serving);
    lives, steps := LifeGoesOn(f, lives, steps, Empties(r, last, 0), emptied);
    lives, steps := LifeGoesOn(f, lives, steps, Starts(0, 2), again);
  }

  /** So the largest term is served twice. */
  lemma {:induction false} LargestServedAgain(f: Format, r: Registry, below: Meta, last: Meta)
    returns (lives: seq<Life>, steps: seq<LifeStep>)
    requires SnapshotsReadBack(f) && f.save(below, r).Some? && f.save(last, r).Some?
    requires below.term == UINT64_MAX - 1 && last.term == UINT64_MAX
    ensures IsLife(f, lives, steps) && |lives| == 4 && lives[3].served == [UINT64_MAX, UINT64_MAX]
  {
    lives, steps := TwoStarts(f, r, below, last);
  }
}
