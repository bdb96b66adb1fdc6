/** The embedding index of one video while its texts are being edited: batches are embedded outside any
    transaction, and a vector is stored only where its text still stands. */
module Indexing {
  import opened Common

  type Vector = seq<real>

  // A search document; `source` is what its embedding was computed from (its hash is the text itself).
  datatype Row = Row(text: string, embedding: Option<Vector>, space: string, source: string)
  type Table = map<nat, Row>

  datatype Pending = Pending(id: nat, text: string)
  datatype FailureCode = ModelFailed | SourceChanged
  datatype Failure = Failure(batch: nat, ids: seq<nat>, code: FailureCode)
  datatype IndexStatus = Succeeded | PartlySucceeded | Failed
  datatype Summary =
    Summary(status: IndexStatus, total: nat, indexed: nat, skipped: nat, failed: nat, failures: seq<Failure>)

  predicate Current(row: Row, space: string) {
    row.embedding.Some? && row.space == space && row.source == row.text
  }

  predicate Standing(rows: Table, p: Pending) {
    p.id in rows && rows[p.id].text == p.text
  }

  // The stored vector was computed in this space from the text the snapshot saw.
  predicate Fresh(rows: Table, space: string, p: Pending)
    requires p.id in rows
  {
    rows[p.id].embedding.Some? && rows[p.id].space == space && rows[p.id].source == p.text
  }

  // The snapshots that are to be embedded, in their order.
  function Stale(rows: Table, space: string, force: bool, snapshots: seq<Pending>): (r: seq<Pending>)
    ensures forall p :: p in r <==> p in snapshots && p.id in rows && (force || !Fresh(rows, space, p))
  {
    if snapshots == [] then []
    else
      var last := snapshots[|snapshots| - 1];
      var before := Stale(rows, space, force, snapshots[..|snapshots| - 1]);
      if last.id in rows && (force || !Fresh(rows, space, last)) then before + [last] else before
  }

  lemma NoneStale(rows: Table, space: string, force: bool, snapshots: seq<Pending>)
    ensures Stale(rows, space, force, snapshots[..0]) == []
  {
  }

  lemma NextStale(rows: Table, space: string, force: bool, snapshots: seq<Pending>, i: nat)
    requires i < |snapshots|
    ensures
      var p := snapshots[i];
      var before := Stale(rows, space, force, snapshots[..i]);
      Stale(rows, space, force, snapshots[..i + 1])
      == if p.id in rows && (force || !Fresh(rows, space, p)) then before + [p] else before
  {
    assert snapshots[..i + 1][..i] == snapshots[..i];
  }

  lemma {:induction false} StaleIsDistinct(rows: Table, space: string, force: bool, snapshots: seq<Pending>)
    requires DistinctIds(snapshots)
    ensures DistinctIds(Stale(rows, space, force, snapshots))
  {
    if snapshots != [] {
      var n := |snapshots| - 1;
      StaleIsDistinct(rows, space, force, snapshots[..n]);
      forall p | p in Stale(rows, space, force, snapshots[..n])
        ensures p.id != snapshots[n].id
      {
        var j :| 0 <= j < n && snapshots[j] == p;
      }
    }
  }

  lemma StaleExactly(rows: Table, space: string, force: bool, snapshots: seq<Pending>)
    ensures forall p :: p in Stale(rows, space, force, snapshots) ==> p in snapshots && p.id in rows
    ensures forall i :: 0 <= i < |snapshots| && snapshots[i].id in rows ==>
      (snapshots[i] in Stale(rows, space, force, snapshots) <==> force || !Fresh(rows, space, snapshots[i]))
    ensures !force && (forall i :: 0 <= i < |snapshots| ==>
                         Standing(rows, snapshots[i]) && Current(rows[snapshots[i].id], space))
            ==> Stale(rows, space, force, snapshots) == []
  {
    var stale := Stale(rows, space, force, snapshots);
    if stale != [] && !force {
      assert stale[0] in stale;
      var i :| 0 <= i < |snapshots| && snapshots[i] == stale[0];
      assert !(Standing(rows, snapshots[i]) && Current(rows[snapshots[i].id], space));
    }
  }

  // What else happens to the table between two transactions of the indexer.
  type World = nat -> (Table -> Table)

  ghost predicate Sound(rows: Table, space: string, gives: (string, Vector) -> bool) {
    forall id :: id in rows && rows[id].embedding.Some? && rows[id].space == space ==>
      gives(rows[id].source, rows[id].embedding.value)
  }

  function Rows(rows: Table): (r: seq<Pending>)
    ensures |r| == |Sorted(rows.Keys)|
    ensures forall i :: 0 <= i < |r| ==>
      r[i].id == Sorted(rows.Keys)[i] && r[i].id in rows && r[i].text == rows[r[i].id].text
  {
    var ids := Sorted(rows.Keys);
    assert forall i :: 0 <= i < |ids| ==> ids[i] in ids;
    seq(|ids|, i requires 0 <= i < |ids| => Pending(ids[i], rows[ids[i]].text))
  }

  ghost predicate DistinctIds(list: seq<Pending>) {
    forall i, j :: 0 <= i < j < |list| ==> list[i].id != list[j].id
  }

  class EmbeddingIndexService {
    const space: string
    const batchSize: nat
    const embed: (nat, seq<string>) -> Option<seq<Vector>>   // the n-th request; None: the model failed
    const world: World
    var rows: Table
    var time: nat
    var calls: nat

    ghost const gives: (string, Vector) -> bool              // the model gives this vector for this text

    constructor (space: string, batchSize: nat, embed: (nat, seq<string>) -> Option<seq<Vector>>, world: World,
                 rows: Table, ghost gives: (string, Vector) -> bool)
      ensures this.space == space && this.batchSize == batchSize && this.embed == embed && this.world == world
      ensures this.rows == rows && this.gives == gives
    {
      this.space, this.batchSize, this.embed, this.world, this.rows := space, batchSize, embed, world, rows;
      this.time, this.calls, this.gives := 0, 0, gives;
    }

    // The model answers with one of its vectors for every text; whatever else writes embeddings in this
    // space, such as another run of the indexer, writes them with the text they were given for.
    ghost predicate Trustworthy() {
      && batchSize >= 1
      && (forall n: nat, texts: seq<string> :: embed(n, texts).Some? ==>
            && |embed(n, texts).value| == |texts|
            && forall i :: 0 <= i < |texts| ==> gives(texts[i], embed(n, texts).value[i]))
      && forall n: nat, t: Table :: Sound(t, space, gives) ==> Sound(world(n)(t), space, gives)
    }

    // Nobody deletes a document.
    ghost predicate NothingDeleted() {
      forall n: nat, t: Table :: t.Keys <= world(n)(t).Keys
    }

    // Nobody else touches the table.
    ghost predicate Quiet() {
      forall n: nat, t: Table :: world(n)(t) == t
    }

    ghost predicate Good()
      reads this
    {
      Sound(rows, space, gives)
    }

    method Interfere()
      requires Trustworthy() && Good()
      modifies this`rows, this`time
      ensures Good() && rows == world(old(time))(old(rows))
      ensures NothingDeleted() ==> old(rows).Keys <= rows.Keys
      ensures Quiet() ==> rows == old(rows)
    {
      rows := world(time)(rows);
      time := time + 1;
    }

    // Documents whose vector is that of their text are skipped, unless everything is to be redone.
    method Mark(snapshots: seq<Pending>, force: bool) returns (pending: seq<Pending>, skipped: nat, ghost gone: nat)
      requires DistinctIds(snapshots)
      ensures skipped + |pending| + gone == |snapshots|
      ensures (forall i :: 0 <= i < |snapshots| ==> snapshots[i].id in rows) ==> gone == 0
      ensures pending == Stale(rows, space, force, snapshots) && DistinctIds(pending)
      ensures forall p :: p in pending ==> p in snapshots && p.id in rows
      ensures forall i :: 0 <= i < |snapshots| && snapshots[i].id in rows ==>
        (snapshots[i] in pending <==> force || !Fresh(rows, space, snapshots[i]))
      ensures !force && (forall i :: 0 <= i < |snapshots| ==>
                           Standing(rows, snapshots[i]) && Current(rows[snapshots[i].id], space))
              ==> pending == []
    {
      hide Stale, DistinctIds;
      pending, skipped, gone := [], 0, 0;
      NoneStale(rows, space, force, snapshots);
      for i := 0 to |snapshots|
        invariant skipped + |pending| + gone == i
        invariant (forall j :: 0 <= j < i ==> snapshots[j].id in rows) ==> gone == 0
        invariant pending == Stale(rows, space, force, snapshots[..i])
      {
        var Pending(id, text) := snapshots[i];
        NextStale(rows, space, force, snapshots, i);
        if id !in rows {
          gone := gone + 1;
        } else {
          var current := rows[id].embedding.Some? && rows[id].space == space && rows[id].source == text;
          if current && !force {
            skipped := skipped + 1;
          } else {
            pending := pending + [snapshots[i]];
          }
        }
      }
      assert snapshots[..|snapshots|] == snapshots;
      StaleIsDistinct(rows, space, force, snapshots);
      StaleExactly(rows, space, force, snapshots);
    }

    // One transaction: each vector goes to its document if the document still has the text it was made of;
    // the others are reported one by one, in order.
    method WriteBatch(n: nat, batch: seq<Pending>, vectors: seq<Vector>) returns (indexed: nat, failures: seq<Failure>)
      requires |vectors| == |batch| && DistinctIds(batch)
      requires Good() && forall i :: 0 <= i < |batch| ==> gives(batch[i].text, vectors[i])
      modifies this`rows
      ensures Good() && Written(old(rows), rows, space, batch, vectors)
      ensures indexed + |failures| == |batch|
      ensures failures == Changed(n, old(rows), batch)
    {
      indexed, failures := 0, [];
      hide Sound, Written, DistinctIds, Changed;
      NothingWritten(n, rows, space, batch, vectors);
      for i := 0 to |batch|
        invariant Good() && Written(old(rows), rows, space, batch[..i], vectors[..i])
        invariant indexed + |failures| == i
        invariant failures == Changed(n, old(rows), batch[..i])
      {
        var Pending(id, text) := batch[i];
        OneWritten(old(rows), rows, space, batch, vectors, i);
        OneChanged(n, old(rows), batch, i);
        if id !in rows || rows[id].text != text {
          failures := failures + [Failure(n, [id], SourceChanged)];
        } else {
          StillSound(rows, space, gives, id, text, vectors[i]);
          rows := rows[id := rows[id].(embedding := Some(vectors[i]), space := space, source := text)];
          indexed := indexed + 1;
        }
      }
      assert batch[..|batch|] == batch && vectors[..|vectors|] == vectors;
    }

    // `pending` is what was to be embedded.
    method IndexVideo(force: bool) returns (r: Summary, ghost pending: seq<Pending>)
      requires Trustworthy() && Good()
      modifies this
      ensures Good()
      ensures forall id :: id in rows && Current(rows[id], space) ==> gives(rows[id].text, rows[id].embedding.value)
      ensures r.total == |old(rows)|
      ensures r.indexed + r.skipped + r.failed <= r.total
      ensures NothingDeleted() ==> r.indexed + r.skipped + r.failed == r.total
      ensures r.status == Succeeded <==> r.failed == 0
      ensures r.status == Failed <==> r.failed > 0 && r.indexed == 0 && r.skipped == 0
      ensures Reported(r.failures) == r.failed
      ensures Pended(old(rows), pending) && BlamesBatches(batchSize, pending, r.failures)
      ensures calls == old(calls) + Batches(|pending|, batchSize)
      ensures Quiet() && r.failed == 0 ==> forall id :: id in rows ==> Current(rows[id], space)
      ensures Quiet() && !force && (forall id :: id in old(rows) ==> Current(old(rows)[id], space)) ==>
                r.skipped == r.total && r.indexed == 0 && r.failed == 0 && rows == old(rows)
    {
      hide Trustworthy, NothingDeleted, Quiet, Sound, DistinctIds, Stale, BlamesBatches, Batches, Reported, Pended;
      var snapshots := Rows(rows);
      SortedLength(rows.Keys);
      Snapshot(rows);
      ghost var start := rows;
      Interfere();
      ghost var marked := rows;
      var marks, skipped, gone := Mark(snapshots, force);
      pending := marks;
      MarkedArePended(start, snapshots, marks);
      var indexed, failed, failures := EmbedAll(marks);
      if Quiet() && failed == 0 {
        AllAreCurrent(start, rows, space, snapshots, marks);
      }
      var status := Succeeded;
      if failed > 0 {
        status := if indexed > 0 || skipped > 0 then PartlySucceeded else Failed;
      }
      r := Summary(status, |snapshots|, indexed, skipped, failed, failures);
      assert forall id :: id in rows && Current(rows[id], space) ==> gives(rows[id].text, rows[id].embedding.value) by {
        SoundMeans(rows, space, gives);
      }
    }

    // One batch: the model is asked outside any transaction, and the world goes on meanwhile.
    method EmbedBatch(n: nat, batch: seq<Pending>) returns (indexed: nat, failed: nat, failures: seq<Failure>)
      requires Trustworthy() && Good() && DistinctIds(batch)
      modifies this
      ensures Good()
      ensures indexed + failed == |batch| && calls == old(calls) + 1
      ensures failures == FailuresOf(n, batch, embed(old(calls), Texts(batch)), world(old(time))(old(rows)))
      ensures Blames(n, batch, failures) && Reported(failures) == failed
      ensures Quiet() ==> OnlyEmbedded(old(rows), rows, IdSet(batch))
      ensures Quiet() && failed == 0 ==> AllCurrent(rows, space, batch)
    {
      var response := embed(calls, Texts(batch));
      calls := calls + 1;
      Interfere();
      if response.None? {
        WholeBatch(n, batch);
        return 0, |batch|, [Failure(n, Ids(batch), ModelFailed)];
      }
      ghost var before := rows;
      indexed, failures := WriteBatch(n, batch, response.value);
      failed := |failures|;
      ChangedBlames(n, before, batch);
      WrittenMeans(before, rows, space, batch, response.value);
    }

    lemma BatchesAreFilled()
      requires Trustworthy()
      ensures batchSize >= 1
    {
    }

    method EmbedAll(pending: seq<Pending>) returns (indexed: nat, failed: nat, failures: seq<Failure>)
      requires Trustworthy() && Good() && DistinctIds(pending)
      modifies this
      ensures Good()
      ensures indexed + failed == |pending|
      ensures calls == old(calls) + Batches(|pending|, batchSize)
      ensures BlamesBatches(batchSize, pending, failures) && Reported(failures) == failed
      ensures pending == [] ==> rows == old(rows)
      ensures Quiet() ==> OnlyEmbedded(old(rows), rows, IdSet(pending))
      ensures Quiet() && failed == 0 ==> AllCurrent(rows, space, pending)
    {
      hide Trustworthy, Quiet, Sound, Current, DistinctIds, From, Batches, BatchAt, Reaches, NothingDeleted, FailuresOf,
        OnlyEmbedded, AllCurrent, IdSet, Blames, BlamesBatches, Changed, Reported, Min;
      indexed, failed, failures := 0, 0, [];
      var offset := 0;
      BatchesAreFilled();
      NoBatchYet(rows, space, batchSize, pending);
      ghost var n := 0;
      while offset < |pending|
        invariant 0 <= offset <= |pending| && Reaches(n, batchSize, |pending|, offset)
        invariant Good() && calls == old(calls) + n
        invariant BlamesBatches(batchSize, pending, failures) && Reported(failures) == failed
        invariant indexed + failed == offset
        invariant offset == 0 ==> rows == old(rows)
        invariant Quiet() ==> OnlyEmbedded(old(rows), rows, IdSet(pending[..offset]))
        invariant Quiet() && failed == 0 ==> AllCurrent(rows, space, pending[..offset])
      {
        NextBatch(n, batchSize, pending, offset);
        var next := Min(offset + batchSize, |pending|);
        var batch := pending[offset..next];
        BatchIsDistinct(pending, offset, next);
        ghost var before := rows;
        var written, unwritten, more := EmbedBatch(offset / batchSize, batch);
        MoreBlamed(batchSize, pending, n, failures, more);
        if Quiet() {
          Compose(old(rows), before, rows, pending, offset, next);
          if failed + unwritten == 0 {
            CurrentTogether(before, rows, space, pending, offset, next);
          }
        }
        indexed, failed, failures := indexed + written, failed + unwritten, failures + more;
        offset := next;
        n := n + 1;
      }
      LastBatch(n, batchSize, |pending|);
      assert pending[..|pending|] == pending;
    }
  }

  // ---- failures --------------------------------------------------------------------------

  // How many documents the failures name.
  function Reported(failures: seq<Failure>): nat {
    if failures == [] then 0 else Reported(failures[..|failures| - 1]) + |failures[|failures| - 1].ids|
  }

  lemma {:induction false} ReportedTogether(a: seq<Failure>, b: seq<Failure>)
    ensures Reported(a + b) == Reported(a) + Reported(b)
  {
    if b == [] {
      assert a + b == a;
    } else {
      assert (a + b)[..|a + b| - 1] == a + b[..|b| - 1];
      ReportedTogether(a, b[..|b| - 1]);
    }
  }

  // The failures of one batch: the model failed on all of it, or texts changed under documents of it.
  ghost predicate Blames(n: nat, batch: seq<Pending>, failures: seq<Failure>) {
    forall f :: f in failures ==>
      && f.batch == n
      && match f.code
         case ModelFailed => |failures| == 1 && f.ids == Ids(batch)
         case SourceChanged => |f.ids| == 1 && exists i :: 0 <= i < |batch| && f.ids == [batch[i].id]
  }

  // Batches of that size in a list of that length.
  function Batches(length: nat, size: nat): nat
    requires size >= 1
  {
    (length + size - 1) / size
  }

  // Where a batch begins.
  ghost function From(n: nat, size: nat): nat {
    n * size
  }

  ghost function BatchAt(size: nat, pending: seq<Pending>, n: nat): seq<Pending>
    requires From(n, size) <= |pending|
  {
    pending[From(n, size)..Min(From(n, size) + size, |pending|)]
  }

  // That many batches reach up to there.
  ghost predicate Reaches(n: nat, size: nat, length: nat, offset: nat) {
    offset == Min(From(n, size), length) && (n > 0 ==> From(n - 1, size) < length)
  }

  // Every failure blames one batch: all its documents when the model failed, one of them when a text changed.
  ghost predicate BlamesBatches(size: nat, pending: seq<Pending>, failures: seq<Failure>) {
    forall f :: f in failures ==>
      && From(f.batch, size) < |pending|
      && match f.code
         case ModelFailed => f.ids == Ids(BatchAt(size, pending, f.batch))
         case SourceChanged =>
           exists i :: 0 <= i < |BatchAt(size, pending, f.batch)| && f.ids == [BatchAt(size, pending, f.batch)[i].id]
  }

  // Documents of the snapshot, each once and with the text it had.
  ghost predicate Pended(rows: Table, pending: seq<Pending>) {
    DistinctIds(pending) && forall p :: p in pending ==> p.id in rows && rows[p.id].text == p.text
  }

  lemma MarkedArePended(rows: Table, snapshots: seq<Pending>, pending: seq<Pending>)
    requires DistinctIds(pending) && forall p :: p in pending ==> p in snapshots
    requires forall i :: 0 <= i < |snapshots| ==> Standing(rows, snapshots[i])
    ensures Pended(rows, pending)
  {
    forall p | p in pending
      ensures p.id in rows && rows[p.id].text == p.text
    {
      var i :| 0 <= i < |snapshots| && snapshots[i] == p;
    }
  }

  lemma WholeBatch(n: nat, batch: seq<Pending>)
    ensures Blames(n, batch, [Failure(n, Ids(batch), ModelFailed)])
    ensures Reported([Failure(n, Ids(batch), ModelFailed)]) == |batch|
  {
    assert [Failure(n, Ids(batch), ModelFailed)][..0] == [];
  }

  lemma {:induction false} ChangedBlames(n: nat, rows: Table, batch: seq<Pending>)
    ensures Blames(n, batch, Changed(n, rows, batch)) && Reported(Changed(n, rows, batch)) == |Changed(n, rows, batch)|
    ensures forall f :: f in Changed(n, rows, batch) ==> f.code == SourceChanged
  {
    if batch != [] {
      var before := batch[..|batch| - 1];
      var last := batch[|batch| - 1];
      ChangedBlames(n, rows, before);
      var added := if Standing(rows, last) then [] else [Failure(n, [last.id], SourceChanged)];
      ReportedTogether(Changed(n, rows, before), added);
      assert added != [] ==> added[..0] == [];
      forall f | f in Changed(n, rows, before)
        ensures exists i :: 0 <= i < |batch| && f.ids == [batch[i].id]
      {
        var i :| 0 <= i < |before| && f.ids == [before[i].id];
        assert batch[i] == before[i];
      }
      assert batch[|batch| - 1] == last;
    }
  }

  lemma MoreBlamed(size: nat, pending: seq<Pending>, n: nat, failures: seq<Failure>, more: seq<Failure>)
    requires From(n, size) < |pending| && BlamesBatches(size, pending, failures)
    requires Blames(n, BatchAt(size, pending, n), more)
    ensures BlamesBatches(size, pending, failures + more)
    ensures Reported(failures + more) == Reported(failures) + Reported(more)
  {
    ReportedTogether(failures, more);
    hide Reported;
  }

  lemma Multiples(a: nat, b: nat, size: nat)
    requires a < b
    ensures a * size + size <= b * size
  {
    assert b * size == (b - 1) * size + size;
    if a < b - 1 {
      Multiples(a, b - 1, size);
    }
  }

  lemma Quotient(x: nat, q: nat, size: nat)
    requires size >= 1 && q * size <= x < q * size + size
    ensures x / size == q
  {
    var d := x / size;
    assert d * size <= x < d * size + size;
    if d < q {
      Multiples(d, q, size);
    } else if q < d {
      Multiples(q, d, size);
    }
  }

  lemma NoBatchYet(rows: Table, space: string, size: nat, pending: seq<Pending>)
    ensures Reaches(0, size, |pending|, 0) && BlamesBatches(size, pending, []) && Reported([]) == 0
    ensures OnlyEmbedded(rows, rows, IdSet(pending[..0])) && AllCurrent(rows, space, pending[..0])
  {
  }

  lemma NextBatch(n: nat, size: nat, pending: seq<Pending>, offset: nat)
    requires size >= 1 && Reaches(n, size, |pending|, offset) && offset < |pending|
    ensures From(n, size) < |pending| && offset / size == n && offset < Min(offset + size, |pending|) <= |pending|
    ensures pending[offset..Min(offset + size, |pending|)] == BatchAt(size, pending, n)
    ensures Reaches(n + 1, size, |pending|, Min(offset + size, |pending|))
  {
    Quotient(offset, n, size);
    assert (n + 1) * size == n * size + size;
  }

  lemma LastBatch(n: nat, size: nat, length: nat)
    requires size >= 1 && Reaches(n, size, length, length)
    ensures Batches(length, size) == n
  {
    if n > 0 {
      assert n * size == (n - 1) * size + size;
    }
    Quotient(length + size - 1, n, size);
  }

  lemma StillSound(rows: Table, space: string, gives: (string, Vector) -> bool, id: nat, text: string, v: Vector)
    requires Sound(rows, space, gives) && id in rows && gives(text, v)
    ensures Sound(rows[id := rows[id].(embedding := Some(v), space := space, source := text)], space, gives)
  {
  }

  // The documents of the batch that still have their text carry its vector; every other row is as it was,
  // those of the batch whose text has changed included.
  ghost predicate Written(before: Table, after: Table, space: string, batch: seq<Pending>, vectors: seq<Vector>)
    requires |vectors| == |batch|
  {
    && after.Keys == before.Keys
    && (forall i :: 0 <= i < |batch| && Standing(before, batch[i]) ==>
          after[batch[i].id]
          == before[batch[i].id].(embedding := Some(vectors[i]), space := space, source := batch[i].text))
    && forall id :: id in before && id !in StandingIds(before, batch) ==> after[id] == before[id]
  }

  ghost function StandingIds(rows: Table, batch: seq<Pending>): set<nat> {
    set i | 0 <= i < |batch| && Standing(rows, batch[i]) :: batch[i].id
  }

  // The failures a batch reports for documents that are gone or whose text has changed.
  function Changed(n: nat, rows: Table, batch: seq<Pending>): seq<Failure> {
    if batch == [] then []
    else
      var last := batch[|batch| - 1];
      Changed(n, rows, batch[..|batch| - 1])
      + if Standing(rows, last) then [] else [Failure(n, [last.id], SourceChanged)]
  }

  // The whole batch when the model failed, and otherwise the documents whose text has changed meanwhile.
  function FailuresOf(n: nat, batch: seq<Pending>, response: Option<seq<Vector>>, rows: Table): seq<Failure> {
    if response.None? then [Failure(n, Ids(batch), ModelFailed)] else Changed(n, rows, batch)
  }

  lemma OneChanged(n: nat, rows: Table, batch: seq<Pending>, i: nat)
    requires i < |batch|
    ensures Changed(n, rows, batch[..i + 1])
            == Changed(n, rows, batch[..i])
               + if Standing(rows, batch[i]) then [] else [Failure(n, [batch[i].id], SourceChanged)]
  {
    assert batch[..i + 1][..i] == batch[..i];
  }

  lemma NothingWritten(n: nat, rows: Table, space: string, batch: seq<Pending>, vectors: seq<Vector>)
    requires |vectors| == |batch|
    ensures Written(rows, rows, space, batch[..0], vectors[..0]) && Changed(n, rows, batch[..0]) == []
  {
  }

  lemma WrittenMeans(before: Table, after: Table, space: string, batch: seq<Pending>, vectors: seq<Vector>)
    requires |vectors| == |batch| && Written(before, after, space, batch, vectors)
    ensures OnlyEmbedded(before, after, IdSet(batch)) && AllCurrent(after, space, batch)
  {
    forall id | id in StandingIds(before, batch)
      ensures id in IdSet(batch) && after[id].text == before[id].text
    {
    }
  }

  lemma OneWritten(before: Table, rows: Table, space: string, batch: seq<Pending>, vectors: seq<Vector>, i: nat)
    requires i < |batch| == |vectors| && DistinctIds(batch)
    requires Written(before, rows, space, batch[..i], vectors[..i])
    ensures Standing(rows, batch[i]) <==> Standing(before, batch[i])
    ensures
      var after := if Standing(rows, batch[i])
                   then rows[batch[i].id := rows[batch[i].id].(embedding := Some(vectors[i]), space := space,
                                                               source := batch[i].text)]
                   else rows;
      Written(before, after, space, batch[..i + 1], vectors[..i + 1])
  {
    OneStanding(before, batch, i);
    hide StandingIds;
    var id := batch[i].id;
    assert id in before <==> id in rows;
    assert id in before ==> rows[id] == before[id];
    forall j | 0 <= j < i
      ensures batch[..i + 1][j] == batch[..i][j] && batch[j].id != id
    {
    }
  }

  lemma OneStanding(rows: Table, batch: seq<Pending>, i: nat)
    requires i < |batch| && DistinctIds(batch)
    ensures StandingIds(rows, batch[..i + 1])
            == StandingIds(rows, batch[..i]) + if Standing(rows, batch[i]) then {batch[i].id} else {}
    ensures batch[i].id !in StandingIds(rows, batch[..i])
  {
    var some, more := batch[..i], batch[..i + 1];
    assert more[i] == batch[i] && forall j :: 0 <= j < i ==> more[j] == some[j] == batch[j];
    forall id | id in StandingIds(rows, some)
      ensures id in StandingIds(rows, more)
    {
      var j :| 0 <= j < i && Standing(rows, some[j]) && some[j].id == id;
      assert more[j].id == id;
    }
  }

  // A snapshot lists every document once, with its text.
  lemma Snapshot(rows: Table)
    ensures DistinctIds(Rows(rows))
    ensures forall i :: 0 <= i < |Rows(rows)| ==> Standing(rows, Rows(rows)[i])
    ensures forall id :: id in rows ==> exists i :: 0 <= i < |Rows(rows)| && Rows(rows)[i].id == id
  {
    var ids := Sorted(rows.Keys);
    forall id | id in rows
      ensures exists i :: 0 <= i < |Rows(rows)| && Rows(rows)[i].id == id
    {
      assert id in ids;
      var i :| 0 <= i < |ids| && ids[i] == id;
      assert Rows(rows)[i].id == id;
    }
  }

  lemma SoundMeans(rows: Table, space: string, gives: (string, Vector) -> bool)
    requires Sound(rows, space, gives)
    ensures forall id :: id in rows && Current(rows[id], space) ==> gives(rows[id].text, rows[id].embedding.value)
  {
  }

  // Skipped or freshly embedded, every document is current.
  lemma AllAreCurrent(start: Table, after: Table, space: string, snapshots: seq<Pending>, pending: seq<Pending>)
    requires forall i :: 0 <= i < |snapshots| ==> Standing(start, snapshots[i])
    requires forall id :: id in start ==> exists i :: 0 <= i < |snapshots| && snapshots[i].id == id
    requires forall p :: p in pending ==> p in snapshots
    requires forall i :: 0 <= i < |snapshots| && snapshots[i] !in pending && snapshots[i].id in start ==>
      Current(start[snapshots[i].id], space)
    requires OnlyEmbedded(start, after, IdSet(pending)) && AllCurrent(after, space, pending)
    ensures forall id :: id in after ==> Current(after[id], space)
  {
    forall id | id in after
      ensures Current(after[id], space)
    {
      var i :| 0 <= i < |snapshots| && snapshots[i].id == id;
      if snapshots[i] in pending {
        var j :| 0 <= j < |pending| && pending[j] == snapshots[i];
        assert Standing(after, pending[j]);
      } else {
        forall k | 0 <= k < |pending|
          ensures pending[k].id != id
        {
          assert pending[k] in pending;
          var j :| 0 <= j < |snapshots| && snapshots[j] == pending[k];
          assert Standing(start, snapshots[j]);
        }
      }
    }
  }

  // Only embeddings have changed, and only those of the given documents.
  ghost predicate OnlyEmbedded(before: Table, after: Table, ids: set<nat>) {
    && after.Keys == before.Keys
    && forall id :: id in before ==> after[id].text == before[id].text && (id !in ids ==> after[id] == before[id])
  }

  ghost predicate AllCurrent(rows: Table, space: string, list: seq<Pending>) {
    forall i :: 0 <= i < |list| && Standing(rows, list[i]) ==> Current(rows[list[i].id], space)
  }

  ghost function IdSet(list: seq<Pending>): set<nat> {
    set i | 0 <= i < |list| :: list[i].id
  }

  lemma BatchIsDistinct(pending: seq<Pending>, from: nat, to: nat)
    requires DistinctIds(pending) && from <= to <= |pending|
    ensures DistinctIds(pending[from..to])
    ensures forall i, j :: 0 <= i < from && from <= j < to ==> pending[i].id != pending[j].id
  {
  }

  lemma Compose(start: Table, before: Table, after: Table, pending: seq<Pending>, from: nat, to: nat)
    requires from <= to <= |pending|
    requires OnlyEmbedded(start, before, IdSet(pending[..from]))
      && OnlyEmbedded(before, after, IdSet(pending[from..to]))
    ensures OnlyEmbedded(start, after, IdSet(pending[..to]))
  {
    forall i | 0 <= i < from
      ensures pending[..from][i].id in IdSet(pending[..to])
    {
      assert pending[..to][i] == pending[i];
    }
    forall i | 0 <= i < to - from
      ensures pending[from..to][i].id in IdSet(pending[..to])
    {
      assert pending[..to][from + i] == pending[from..to][i];
    }
  }

  lemma CurrentTogether(before: Table, after: Table, space: string, pending: seq<Pending>, from: nat, to: nat)
    requires DistinctIds(pending) && from <= to <= |pending|
    requires OnlyEmbedded(before, after, IdSet(pending[from..to]))
    requires AllCurrent(before, space, pending[..from]) && AllCurrent(after, space, pending[from..to])
    ensures AllCurrent(after, space, pending[..to])
  {
    forall i | 0 <= i < to && Standing(after, pending[i])
      ensures Current(after[pending[i].id], space)
    {
      if i < from {
        assert pending[..from][i] == pending[i];
        assert pending[i].id !in IdSet(pending[from..to]);
      } else {
        assert pending[from..to][i - from] == pending[i];
      }
    }
  }

  function Texts(batch: seq<Pending>): (r: seq<string>)
    ensures |r| == |batch|
    ensures forall i :: 0 <= i < |batch| ==> r[i] == batch[i].text
  {
    seq(|batch|, i requires 0 <= i < |batch| => batch[i].text)
  }

  function Ids(batch: seq<Pending>): (r: seq<nat>)
    ensures |r| == |batch|
    ensures forall i :: 0 <= i < |batch| ==> r[i] == batch[i].id
  {
    seq(|batch|, i requires 0 <= i < |batch| => batch[i].id)
  }

  lemma {:induction false} SortedLength(ids: set<nat>)
    ensures |Sorted(ids)| == |ids|
    decreases |ids|
  {
    if ids != {} {
      SortedLength(ids - {Least(ids)});
    }
  }
}
