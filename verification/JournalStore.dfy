/** A database with an attached recovery stream. Once the stream is initialized only batches that
    carry an envelope may write, so the live state is always the state at the stream's floor with
    the batches of the retained envelopes applied in order. */
module JournalStore {
  import opened Options
  import opened BatchSemantics
  import opened BatchPreflight
  import opened BatchGroups
  import opened BatchOrder
  import opened BatchCommit
  import J = JournalStream

  datatype Reply = Answered(answer: Answer) | NotApplied(error: J.Error)

  /** A batch, grouped by tree, with the first sequence number it was given. */
  datatype Numbered = Numbered(base: nat, groups: seq<Group>)

  /** The first `n` batches, one after the other. */
  function RunBatches(d: Db, bs: seq<Numbered>, n: nat): Outcome<Db>
    requires n <= |bs|
  {
    if n == 0 then Ok(d)
    else match RunBatches(d, bs, n - 1)
      case Fail(f) => Fail(f)
      case Ok(e) => RunGroups(e, bs[n - 1].groups, bs[n - 1].base, |bs[n - 1].groups|)
  }

  lemma {:induction false} RunBatchesPrefix(d: Db, bs: seq<Numbered>, bs': seq<Numbered>, n: nat)
    requires n <= |bs| && n <= |bs'| && forall i | 0 <= i < n :: bs[i] == bs'[i]
    ensures RunBatches(d, bs, n) == RunBatches(d, bs', n)
  {
    if n > 0 { RunBatchesPrefix(d, bs, bs', n - 1); }
  }

  lemma {:induction false} RunOneMore(d: Db, bs: seq<Numbered>, b: Numbered, e: Db, f: Db)
    requires RunBatches(d, bs, |bs|) == Ok(e) && RunGroups(e, b.groups, b.base, |b.groups|) == Ok(f)
    ensures RunBatches(d, bs + [b], |bs| + 1) == Ok(f)
  {
    RunBatchesPrefix(d, bs, bs + [b], |bs|);
  }

  lemma {:induction false} ChainGrows(floor: J.Anchor, es: seq<J.Envelope>, e: J.Envelope)
    requires J.Chained(floor, es) && J.WellFormed(e) && e.previous == J.AnchorAt(floor, es, |es|)
    ensures J.Chained(floor, es + [e]) && J.AnchorAt(floor, es + [e], |es| + 1) == e.current
  {
    forall i | 0 <= i < |es| + 1 ensures J.Link(floor, es + [e], i) {
      assert i < |es| ==> J.Link(floor, es, i);
    }
  }

  /** The retained envelopes are the end of everything accepted since the beginning, and it all chains. */
  ghost predicate WholeStream(genesis: J.Anchor, history: seq<J.Envelope>, folded: nat, floor: J.Anchor,
                              envelopes: seq<J.Envelope>)
  {
    && J.Chained(genesis, history) && folded + |envelopes| == |history| && envelopes == history[folded..]
    && floor == J.AnchorAt(genesis, history, folded)
  }

  lemma {:induction false} WholeGrows(genesis: J.Anchor, history: seq<J.Envelope>, folded: nat, floor: J.Anchor,
                                      es: seq<J.Envelope>, e: J.Envelope)
    requires WholeStream(genesis, history, folded, floor, es) && J.WellFormed(e)
      && e.previous == J.AnchorAt(floor, es, |es|)
    ensures WholeStream(genesis, history + [e], folded, floor, es + [e])
  {
    assert e.previous == J.AnchorAt(genesis, history, |history|);
    ChainGrows(genesis, history, e);
    assert (history + [e])[folded..] == es + [e];
  }

  /** Of all envelopes a stream ever accepted, no two name the same previous anchor. */
  lemma {:induction false} OneSuccessor(genesis: J.Anchor, history: seq<J.Envelope>, i: nat, j: nat)
    requires J.Chained(genesis, history) && i < j < |history|
    ensures history[i].previous != history[j].previous
  {
    assert J.Link(genesis, history, i) && J.Link(genesis, history, j);
    J.ChainedSequence(genesis, history, i);
    J.ChainedSequence(genesis, history, j);
  }

  ghost predicate Unusable(pending: seq<DbOp>, live: set<Name>) {
    exists i :: 0 <= i < |pending| && !Usable(live, pending[i].tree)
  }

  /** What an attached batch leaves: it is applied exactly when its operations run, the stream takes its
      envelope and nothing breaks; if something breaks the store is latched; otherwise nothing changed. */
  ghost predicate Attached(d: Db, base: nat, groups: seq<Group>, tail: Option<J.Anchor>, e: J.Envelope, recordLen: nat,
                         fault: Fault, r: Reply, d': Db, latched: bool)
  {
    var o := RunGroups(d, groups, base, |groups|);
    var fits := 0 < recordLen <= J.MAX_RECORD_BYTES && tail == Some(e.previous);
    if o.Fail? then
      r == Answered(if o.failure.GuardFailed? then Refused else Error(o.failure)) && d' == d && !latched
    else if !fits then r.NotApplied? && d' == d && !latched
    else if !Hits(fault, groups) then r == Answered(Applied) && d' == o.value && !latched
    else r == Answered(OutcomeUnknown) && latched && if fault.LogRefuses? then d' == o.value
      else PartWay(d, groups, base, d')
  }

  class AttachedStore {
    const db: LiveDb
    var floor: Option<J.Anchor>
    var tail: Option<J.Anchor>
    var envelopes: seq<J.Envelope>
    /** The contents at the floor, and the batches of the retained envelopes. */
    ghost var floorImage: Db
    ghost var batches: seq<Numbered>
    /** The anchor the stream began at, every envelope it accepted, and how many are behind the floor. */
    ghost var genesis: Option<J.Anchor>
    ghost var history: seq<J.Envelope>
    ghost var folded: nat

    predicate Fenced() reads this { floor.Some? }

    /** The stream by itself. */
    ghost predicate StreamOk()
      reads this
    {
      && (floor.Some? <==> tail.Some?) && |batches| == |envelopes|
      && (floor.None? ==> envelopes == [])
      && (floor.Some? ==>
            J.Chained(floor.value, envelopes) && tail.value == J.AnchorAt(floor.value, envelopes, |envelopes|))
      && (genesis.Some? <==> floor.Some?)
      && (floor.Some? ==> WholeStream(genesis.value, history, folded, floor.value, envelopes))
    }

    ghost predicate Valid()
      reads this, db, db.trees.Values`records
    {
      && StreamOk() && db.Valid()
      && (floor.Some? && !db.latched ==> RunBatches(floorImage, batches, |batches|) == Ok(db.Contents()))
    }

    constructor (trees: map<Name, LiveTree>)
      requires forall m, n | m in trees && n in trees && m != n :: trees[m] != trees[n]
      requires forall n | n in trees :: trees[n].records == map[]
      ensures Valid() && !Fenced() && db.trees == trees && !db.latched && fresh(db)
    {
      db := new LiveDb(trees);
      floor, tail, envelopes, batches := None, None, [], [];
      genesis, history, folded := None, [], 0;
    }

    /** A batch without an envelope: refused from the moment the stream exists. */
    method OrdinaryBatch(pending: seq<DbOp>, fault: Fault) returns (r: Reply, ghost groups: seq<Group>)
      requires Valid()
      modifies db, db.trees.Values`records
      ensures Valid()
      ensures Fenced() ==>
        r == NotApplied(J.Unavailable) && db.Contents() == old(db.Contents()) && db.latched == old(db.latched)
      ensures !Fenced() ==> r.Answered?
      ensures !Fenced() && !old(db.latched) && !r.answer.BadName? ==>
        && IsGrouping(groups, pending, |pending|)
        && Committed(old(db.Contents()), old(db.nextSeq), old(db.log), groups, fault, r.answer, db.Contents(),
          db.log, db.latched)
    {
      groups := [];
      if floor.Some? { return NotApplied(J.Unavailable), groups; }
      var a;
      a, groups := db.Atomic(pending, fault);
      r := Answered(a);
    }

    method Begin(start: J.Anchor)
      requires StreamOk() && floor.None?
      modifies this
      ensures StreamOk() && floor == tail == Some(start) && envelopes == [] && batches == []
      ensures floorImage == db.Contents() == old(db.Contents())
    {
      floor, tail, envelopes := Some(start), Some(start), [];
      floorImage, batches := db.Contents(), [];
      genesis, history, folded := Some(start), [], 0;
    }

    /** Start the stream at an anchor. An existing stream accepts only its present floor. */
    method Initialize(start: J.Anchor, clean: bool) returns (r: Reply)
      requires Valid()
      modifies this
      ensures Valid() && db.Contents() == old(db.Contents())
      ensures old(db.latched) ==> r == Answered(Closed)
      ensures !old(db.latched) ==> (r == Answered(Applied) <==>
        old(floor) == Some(start) || (old(floor).None? && clean))
      ensures r == Answered(Applied) ==> floor == Some(start)
      ensures r == Answered(Applied) && old(floor).None? ==>
        tail == Some(start) && envelopes == [] && floorImage == db.Contents()
      ensures r != Answered(Applied) || old(floor).Some? ==>
        floor == old(floor) && tail == old(tail) && envelopes == old(envelopes)
    {
      if db.latched { return Answered(Closed); }
      if floor.Some? {
        return if floor.value == start then Answered(Applied)
               else NotApplied(J.AnchorMismatch(start.sequence, floor.value.sequence));
      }
      if !clean { return NotApplied(J.Unavailable); }
      Begin(start);
      return Answered(Applied);
    }

    /** The stream is open for a record of this size after `previous`. */
    method BeginAttached(previous: J.Anchor, recordLen: nat) returns (e: Option<J.Error>)
      requires StreamOk()
      ensures e.None? <==> 0 < recordLen <= J.MAX_RECORD_BYTES && tail == Some(previous)
    {
      if recordLen == 0 { return Some(J.EmptyRecord); }
      if recordLen > J.MAX_RECORD_BYTES { return Some(J.RecordTooLarge(recordLen)); }
      if tail.None? { return Some(J.Unavailable); }
      if tail.value != previous { return Some(J.AnchorMismatch(previous.sequence, tail.value.sequence)); }
      return None;
    }

    /** The envelope enters the stream at the tail. */
    method Extend(e: J.Envelope, ghost b: Numbered)
      requires StreamOk() && db.Valid() && J.WellFormed(e) && tail == Some(e.previous)
      modifies `tail, `envelopes, `batches, `history
      ensures StreamOk() && db.Valid() && tail == Some(e.current) && envelopes == old(envelopes) + [e]
      ensures batches == old(batches) + [b] && history == old(history) + [e] && db.Contents() == old(db.Contents())
    {
      ChainGrows(floor.value, envelopes, e);
      WholeGrows(genesis.value, history, folded, floor.value, envelopes, e);
      tail, envelopes := Some(e.current), envelopes + [e];
      batches, history := batches + [b], history + [e];
    }

    /** The batch is applied, so its envelope follows. */
    method Follow(e: J.Envelope, ghost b: Numbered, ghost before: Db)
      requires StreamOk() && db.Valid() && J.WellFormed(e) && tail == Some(e.previous)
      requires RunBatches(floorImage, batches, |batches|) == Ok(before)
      requires RunGroups(before, b.groups, b.base, |b.groups|) == Ok(db.Contents())
      modifies `tail, `envelopes, `batches, `history
      ensures Valid() && db.Contents() == old(db.Contents())
      ensures Grown(old(history), old(envelopes), e) && tail == Some(e.current)
    {
      RunOneMore(floorImage, batches, b, before, db.Contents());
      Extend(e, b);
    }

    /** The accepted batch is applied and logged, and its envelope follows it; or the store is latched. */
    method CommitAttached(groups: seq<Group>, base: nat, e: J.Envelope, fault: Fault) returns (ok: bool)
      requires Valid() && !db.latched && J.WellFormed(e) && tail == Some(e.previous)
      requires GroupsLive(db.Contents(), groups) && GroupBase(groups, base, |groups|) <= db.nextSeq
      requires RunGroups(db.Contents(), groups, base, |groups|).Ok?
      modifies this, db, db.trees.Values`records
      ensures Valid() && floor == old(floor) && ok == !Hits(fault, groups) == !db.latched
      ensures ok ==> Grown(old(history), old(envelopes), e) && tail == Some(e.current)
      ensures ok || fault.LogRefuses? ==> RunGroups(old(db.Contents()), groups, base, |groups|) == Ok(db.Contents())
      ensures !ok ==> history == old(history) && envelopes == old(envelopes) && tail == old(tail)
      ensures !ok && !fault.LogRefuses? ==> PartWay(old(db.Contents()), groups, base, db.Contents())
    {
      ghost var before := db.Contents();
      ok := db.ApplyLogged(groups, base, fault);
      if ok {
        Follow(e, Numbered(base, groups), before);
      }
    }

    ghost predicate Grown(h: seq<J.Envelope>, es: seq<J.Envelope>, e: J.Envelope)
      reads this
    {
      history == h + [e] && envelopes == es + [e]
    }

    /** Preflight, the stream's own check, then the commit. */
    method TryAttached(groups: seq<Group>, count: nat, e: J.Envelope, recordLen: nat, fault: Fault) returns (r: Reply)
      requires Valid() && !db.latched && J.WellFormed(e) && GroupsLive(db.Contents(), groups) && Distinct(groups)
      requires GroupBase(groups, db.nextSeq, |groups|) == db.nextSeq + count
      modifies this, db, db.trees.Values`records
      ensures Valid() && floor == old(floor)
      ensures Attached(old(db.Contents()), old(db.nextSeq), groups, old(tail), e, recordLen, fault, r, db.Contents(),
        db.latched)
      ensures if r == Answered(Applied) then Grown(old(history), old(envelopes), e) && tail == Some(e.current)
              else history == old(history) && envelopes == old(envelopes) && tail == old(tail)
    {
      var base := db.Reserve(count);
      var v := PreflightGroups(db.Contents(), groups, base);
      match v {
        case Refuses => return Answered(Refused);
        case Errs(f) => return Answered(Error(f));
        case Passes =>
      }
      var bad := BeginAttached(e.previous, recordLen);
      if bad.Some? { return NotApplied(bad.value); }
      var ok := CommitAttached(groups, base, e, fault);
      return Answered(if ok then Applied else OutcomeUnknown);
    }

    /** A batch with its envelope. Both take effect together: the batch on its trees and the envelope
        at the tail; or neither does and the reply says so; or the store is latched closed, with some
        prefix of the batch applied and no envelope. */
    method AttachedBatch(pending: seq<DbOp>, e: J.Envelope, recordLen: nat, fault: Fault)
      returns (r: Reply, ghost groups: seq<Group>)
      requires Valid() && J.WellFormed(e)
      modifies this, db, db.trees.Values`records
      ensures Valid() && floor == old(floor)
      ensures old(db.latched) ==> r == Answered(Closed)
      ensures !old(db.latched) && Unusable(pending, db.trees.Keys) ==> r.Answered? && r.answer.BadName?
      ensures !old(db.latched) && !Unusable(pending, db.trees.Keys) ==>
        if DbCount(pending, |pending|) == 0 then r == NotApplied(J.NoMutation)
        else
          && IsGrouping(groups, pending, |pending|)
          && Attached(old(db.Contents()), old(db.nextSeq), groups, old(tail), e, recordLen, fault, r, db.Contents(),
            db.latched)
      ensures r != Answered(Applied) && r != Answered(OutcomeUnknown) ==>
        db.Contents() == old(db.Contents()) && db.latched == old(db.latched)
      ensures if r == Answered(Applied) then Grown(old(history), old(envelopes), e) && tail == Some(e.current)
              else history == old(history) && envelopes == old(envelopes) && tail == old(tail)
    {
      groups := [];
      if db.latched { return Answered(Closed), groups; }
      var g := GroupBatchOps(pending, db.trees.Keys);
      if g.Rejected? { return Answered(BadName(g.error)), groups; }
      groups := g.groups;
      if DbCount(pending, |pending|) == 0 { return NotApplied(J.NoMutation), groups; }
      GroupsAreWellFormed(db.Contents(), pending, g.groups);
      RangesCover(pending, g.groups, db.nextSeq, |g.groups|);
      r := TryAttached(g.groups, DbCount(pending, |pending|), e, recordLen, fault);
    }

    method Fold()
      requires StreamOk() && floor.Some?
      modifies `floor, `envelopes, `batches, `floorImage, `folded
      ensures StreamOk() && floor == tail && envelopes == [] && batches == []
      ensures floorImage == db.Contents() == old(db.Contents())
    {
      assert history[|history|..] == [];
      floor, envelopes := tail, [];
      floorImage, batches, folded := db.Contents(), [], |history|;
    }

    /** At a clean image the floor moves to the tail and the envelopes behind it are dropped. */
    method Checkpoint() returns (r: Reply)
      requires Valid()
      modifies this
      ensures Valid() && db.Contents() == old(db.Contents())
      ensures r == Answered(if db.latched then Closed else Applied)
      ensures r == Answered(Applied) && Fenced() ==>
        floor == tail == old(tail) && envelopes == [] && floorImage == db.Contents()
      ensures r == Answered(Closed) || !Fenced() ==>
        floor == old(floor) && tail == old(tail) && envelopes == old(envelopes)
    {
      if db.latched { return Answered(Closed); }
      if tail.Some? { Fold(); }
      return Answered(Applied);
    }

    /** A bounded page of the envelopes after `cursor`. */
    method EnvelopesAfter(cursor: J.Anchor, rowLimit: nat, byteLimit: nat) returns (r: J.Result<J.Page>)
      requires StreamOk()
      ensures rowLimit == 0 ==> r == J.Err(J.InvalidScanLimit)
      ensures rowLimit > 0 && floor.None? ==> r == J.Err(J.Unavailable)
      ensures rowLimit > 0 && floor.Some? ==>
        match J.Located(floor.value, envelopes, cursor)
        case Err(e) => r == J.Err(e)
        case Ok(start) =>
          && r.Ok? && start <= |envelopes| && r.value.envelopes <= envelopes[start..]
          && (start < |envelopes| ==> r.value.envelopes != [])
          && r.value.next == J.AnchorAt(floor.value, envelopes, start + |r.value.envelopes|)
          && (r.value.hasMore <==> start + |r.value.envelopes| < |envelopes|)
    {
      if rowLimit == 0 { return J.Err(J.InvalidScanLimit); }
      if floor.None? { return J.Err(J.Unavailable); }
      var s := J.StartAfter(floor.value, envelopes, tail.value, cursor);
      if s.Err? { return J.Err(s.error); }
      J.LocatesPositions(floor.value, envelopes, cursor, s.value);
      var p := J.BoundedPage(floor.value, envelopes, s.value, cursor, rowLimit, byteLimit);
      assert s.value < |envelopes| ==> J.Fits(envelopes, s.value, 1, rowLimit, byteLimit);
      return J.Ok(p);
    }
  }
}
