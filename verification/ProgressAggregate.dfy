/** Progress of a batch request: the mean of the latest amounts, as the two client libraries keep it. */
module ProgressAggregate {

  datatype Id = Number(n: int) | Text(s: string)

  // a progress notification: for which request, and how far it has come
  datatype Note = Note(id: Id, amount: real)

  // ---- the reference ----

  /** The last amount reported for a request, 0 before the first. */
  function Latest(notes: seq<Note>, id: Id): real {
    if notes == [] then 0.0
    else if notes[|notes| - 1].id == id then notes[|notes| - 1].amount
    else Latest(notes[..|notes| - 1], id)
  }

  function Amounts(notes: seq<Note>): Id -> real {
    id => Latest(notes, id)
  }

  // the requests of a batch that differ by their id, first occurrences first
  function Distinct(ids: seq<Id>): seq<Id> {
    if ids == [] then []
    else
      var before := Distinct(ids[..|ids| - 1]);
      if ids[|ids| - 1] in before then before else before + [ids[|ids| - 1]]
  }

  function Total(ids: seq<Id>, amount: Id -> real): real {
    if ids == [] then 0.0 else Total(ids[..|ids| - 1], amount) + amount(ids[|ids| - 1])
  }

  /** Every request counts once, with its latest amount; the divisor is the number of requests. */
  function Mean(ids: seq<Id>, notes: seq<Note>): real
    requires ids != []
  {
    Total(Distinct(ids), Amounts(notes)) / |ids| as real
  }

  // ---- sums ----

  predicate NoDuplicates(ids: seq<Id>) {
    forall i, j :: 0 <= i < j < |ids| ==> ids[i] != ids[j]
  }

  lemma {:induction false} DistinctIsASet(ids: seq<Id>)
    ensures NoDuplicates(Distinct(ids)) && |Distinct(ids)| <= |ids|
    ensures forall id :: id in Distinct(ids) <==> id in ids
    ensures |Distinct(ids)| == |ids| <==> NoDuplicates(ids)
  {
    if ids == [] {
    } else {
      var rest, last := ids[..|ids| - 1], ids[|ids| - 1];
      DistinctIsASet(rest);
      assert ids == rest + [last];
      assert NoDuplicates(ids) <==> NoDuplicates(rest) && last !in rest by {
        if last in rest {
          var i :| 0 <= i < |rest| && rest[i] == last;
          assert ids[i] == ids[|ids| - 1];
        }
        if NoDuplicates(ids) {
          forall i, j | 0 <= i < j < |rest| ensures rest[i] != rest[j] {
            assert ids[i] != ids[j];
          }
        }
      }
    }
  }

  lemma {:induction false} TotalAgrees(ids: seq<Id>, f: Id -> real, g: Id -> real)
    requires forall id :: id in ids ==> f(id) == g(id)
    ensures Total(ids, f) == Total(ids, g)
  {
    if ids == [] {
    } else {
      assert ids[|ids| - 1] in ids;
      TotalAgrees(ids[..|ids| - 1], f, g);
    }
  }

  /** Changing one amount moves the total by the change, once. */
  lemma {:induction false} TotalMoves(ids: seq<Id>, f: Id -> real, g: Id -> real, id: Id)
    requires NoDuplicates(ids) && id in ids
    requires forall other :: other in ids && other != id ==> f(other) == g(other)
    ensures Total(ids, g) == Total(ids, f) - f(id) + g(id)
  {
    var rest, last := ids[..|ids| - 1], ids[|ids| - 1];
    assert ids == rest + [last];
    assert forall i :: 0 <= i < |rest| ==> ids[i] != ids[|ids| - 1];
    if last == id {
      assert id !in rest;
      TotalAgrees(rest, f, g);
    } else {
      assert last in ids;
      TotalMoves(rest, f, g, id);
    }
  }

  lemma {:induction false} TotalIsBounded(ids: seq<Id>, f: Id -> real)
    requires forall id :: id in ids ==> 0.0 <= f(id) <= 1.0
    ensures 0.0 <= Total(ids, f) <= |ids| as real
    ensures Total(ids, f) == |ids| as real <==> forall id :: id in ids ==> f(id) == 1.0
  {
    if ids == [] {
    } else {
      var rest, last := ids[..|ids| - 1], ids[|ids| - 1];
      assert ids == rest + [last];
      assert last in ids;
      TotalIsBounded(rest, f);
      assert |ids| as real == |rest| as real + 1.0;
    }
  }

  // ---- the mean ----

  predicate AreFractions(notes: seq<Note>) {
    forall n :: n in notes ==> 0.0 <= n.amount <= 1.0
  }

  lemma {:induction false} LatestIsFraction(notes: seq<Note>, id: Id)
    requires AreFractions(notes)
    ensures 0.0 <= Latest(notes, id) <= 1.0
  {
    if notes == [] {
    } else {
      assert notes[|notes| - 1] in notes;
      LatestIsFraction(notes[..|notes| - 1], id);
    }
  }

  /** With amounts between 0 and 1 the mean is between 0 and 1, and it is 1, which ends the client's
      subscription, exactly when every request has reported 1 and no two requests share an id. */
  lemma MeanIsOneIff(ids: seq<Id>, notes: seq<Note>)
    requires ids != [] && AreFractions(notes)
    ensures 0.0 <= Mean(ids, notes) <= 1.0
    ensures Mean(ids, notes) == 1.0
            <==> NoDuplicates(ids) && forall id :: id in ids ==> Latest(notes, id) == 1.0
  {
    var f := Amounts(notes);
    var distinct := Distinct(ids);
    DistinctIsASet(ids);
    forall id ensures 0.0 <= Latest(notes, id) <= 1.0 {
      LatestIsFraction(notes, id);
    }
    TotalIsBounded(distinct, f);
    var total, n := Total(distinct, f), |ids| as real;
    assert total <= |distinct| as real <= n;
    DivideIsBounded(total, n);
    if total == n {
      assert |distinct| == |ids|;
    }
  }

  lemma DivideIsBounded(total: real, n: real)
    requires 0.0 <= total <= n && n > 0.0
    ensures 0.0 <= total / n <= 1.0
    ensures total / n == 1.0 <==> total == n
  {
    var q := total / n;
    assert q * n == total;
  }

  /** A notification moves the mean by its request's share of the change, so the mean decreases only
      when that request did; one for a request of another batch does not move it. */
  lemma MeanMoves(ids: seq<Id>, notes: seq<Note>, note: Note)
    requires ids != []
    ensures Mean(ids, notes + [note])
            == Mean(ids, notes)
               + (if note.id in ids then (note.amount - Latest(notes, note.id)) / |ids| as real else 0.0)
    ensures note.id in ids ==>
              (Mean(ids, notes + [note]) >= Mean(ids, notes) <==> note.amount >= Latest(notes, note.id))
  {
    var f, g := Amounts(notes), Amounts(notes + [note]);
    assert (notes + [note])[..|notes|] == notes;
    DistinctIsASet(ids);
    if note.id in ids {
      TotalMoves(Distinct(ids), f, g, note.id);
      DivideMoves(Total(Distinct(ids), f), note.amount - Latest(notes, note.id), |ids| as real);
    } else {
      TotalAgrees(Distinct(ids), f, g);
    }
  }

  lemma DivideMoves(total: real, change: real, n: real)
    requires n > 0.0
    ensures (total + change) / n == total / n + change / n
    ensures change / n >= 0.0 <==> change >= 0.0
  {
    var q := change / n;
    assert q * n == change;
    if q < 0.0 {
      assert q * n < 0.0;
    }
  }

  predicate NoneFallsBack(ids: seq<Id>, notes: seq<Note>) {
    forall k :: 0 <= k < |notes| && notes[k].id in ids ==> notes[k].amount >= Latest(notes[..k], notes[k].id)
  }

  /** A run in which no request falls back never falls back as a whole. */
  lemma {:induction false} MeanNeverFallsBack(ids: seq<Id>, notes: seq<Note>, k: nat)
    requires ids != [] && k <= |notes| && NoneFallsBack(ids, notes)
    ensures Mean(ids, notes[..k]) <= Mean(ids, notes)
    decreases |notes| - k
  {
    if k == |notes| {
      assert notes[..k] == notes;
    } else {
      assert notes[..k + 1] == notes[..k] + [notes[k]];
      MeanMoves(ids, notes[..k], notes[k]);
      MeanNeverFallsBack(ids, notes, k + 1);
    }
  }

  // ---- the array of client.ts ----

  function Held(items: seq<Note>, id: Id): real {
    if items == [] then 0.0
    else if items[|items| - 1].id == id then items[|items| - 1].amount
    else Held(items[..|items| - 1], id)
  }

  function Sum(items: seq<Note>): real {
    if items == [] then 0.0 else Sum(items[..|items| - 1]) + items[|items| - 1].amount
  }

  predicate OneEach(items: seq<Note>) {
    forall i, j :: 0 <= i < j < |items| ==> items[i].id != items[j].id
  }

  lemma {:induction false} HeldNowhere(items: seq<Note>, id: Id)
    requires forall i :: 0 <= i < |items| ==> items[i].id != id
    ensures Held(items, id) == 0.0
  {
    if items == [] {
    } else {
      HeldNowhere(items[..|items| - 1], id);
    }
  }

  lemma {:induction false} TotalOfNothing(ids: seq<Id>, f: Id -> real)
    requires forall id :: id in ids ==> f(id) == 0.0
    ensures Total(ids, f) == 0.0
  {
    if ids == [] {
    } else {
      assert ids[|ids| - 1] in ids;
      TotalOfNothing(ids[..|ids| - 1], f);
    }
  }

  // one entry per request: adding up the entries is adding up the requests
  lemma {:induction false} SumIsTotal(items: seq<Note>, ids: seq<Id>)
    requires OneEach(items) && NoDuplicates(ids)
    requires forall i :: 0 <= i < |items| ==> items[i].id in ids
    ensures Sum(items) == Total(ids, id => Held(items, id))
  {
    if items == [] {
      TotalOfNothing(ids, id => Held(items, id));
    } else {
      var rest, last := items[..|items| - 1], items[|items| - 1];
      SumIsTotal(rest, ids);
      HeldNowhere(rest, last.id);
      TotalMoves(ids, id => Held(rest, id), id => Held(items, id), last.id);
    }
  }

  ghost predicate Represents(items: seq<Note>, ids: seq<Id>, notes: seq<Note>) {
    && OneEach(items)
    && (forall i :: 0 <= i < |items| ==> items[i].id in ids)
    && (forall id :: id in ids ==> Held(items, id) == Latest(notes, id))
  }

  lemma RepresentsSum(items: seq<Note>, ids: seq<Id>, notes: seq<Note>)
    requires ids != [] && Represents(items, ids, notes)
    ensures Sum(items) / |ids| as real == Mean(ids, notes)
  {
    DistinctIsASet(ids);
    SumIsTotal(items, Distinct(ids));
    TotalAgrees(Distinct(ids), id => Held(items, id), Amounts(notes));
  }

  // the one entry of the request is spliced out for the new one, or the new one pushed
  lemma {:induction false} SpliceIsHeld(items: seq<Note>, note: Note, k: nat, id: Id)
    requires OneEach(items) && k < |items| && items[k].id == note.id
    ensures OneEach(items[k := note])
    ensures Held(items[k := note], id) == if id == note.id then note.amount else Held(items, id)
  {
    var rest := items[..|items| - 1];
    if k < |items| - 1 {
      assert items[k := note][..|items| - 1] == rest[k := note];
      SpliceIsHeld(rest, note, k, id);
    } else {
      assert items[k := note][..|items| - 1] == rest;
    }
  }

  lemma NewNoteIsRepresented(items: seq<Note>, ids: seq<Id>, notes: seq<Note>, note: Note, k: int)
    requires Represents(items, ids, notes) && note.id in ids
    requires 0 <= k < |items| ==> items[k].id == note.id
    requires !(0 <= k < |items|) ==> forall i :: 0 <= i < |items| ==> items[i].id != note.id
    ensures Represents(if 0 <= k < |items| then items[k := note] else items + [note], ids, notes + [note])
  {
    assert (notes + [note])[..|notes|] == notes;
    if 0 <= k < |items| {
      forall id ensures Held(items[k := note], id) == if id == note.id then note.amount else Held(items, id) {
        SpliceIsHeld(items, note, k, id);
      }
      SpliceIsHeld(items, note, k, note.id);
    } else {
      assert (items + [note])[..|items|] == items;
    }
  }

  class Aggregate {
    const requests: seq<Id>
    var items: seq<Note>
    ghost var seen: seq<Note>       // the notifications that passed the filter

    constructor (requests: seq<Id>)
      ensures this.requests == requests && Valid() && seen == []
    {
      this.requests := requests;
      items, seen := [], [];
    }

    ghost predicate Valid()
      reads this
    {
      Represents(items, requests, seen)
    }

    method FindIndex(id: Id) returns (index: int)
      ensures index == -1 ==> forall i :: 0 <= i < |items| ==> items[i].id != id
      ensures index != -1 ==> 0 <= index < |items| && items[index].id == id
    {
      for i := 0 to |items|
        invariant forall j :: 0 <= j < i ==> items[j].id != id
      {
        if items[i].id == id {
          return i;
        }
      }
      return -1;
    }

    method Add() returns (total: real)
      ensures total == Sum(items)
    {
      total := 0.0;
      for i := 0 to |items|
        invariant total == Sum(items[..i])
      {
        assert items[..i + 1][..i] == items[..i];
        total := total + items[i].amount;
      }
      assert items[..|items|] == items;
    }

    method Next(progress: Note) returns (amount: real)
      requires Valid() && progress.id in requests
      modifies this`items, this`seen
      ensures Valid() && seen == old(seen) + [progress]
      ensures amount == Mean(requests, seen)
    {
      var index := FindIndex(progress.id);
      NewNoteIsRepresented(items, requests, seen, progress, index);
      if index != -1 {
        items := items[index := progress];
      } else {
        items := items + [progress];
      }
      seen := seen + [progress];
      var total := Add();
      RepresentsSum(items, requests, seen);
      amount := total / |requests| as real;
    }
  }

  // ---- the dictionary of async_client.py ----

  function Values(items: map<Id, real>): Id -> real {
    id => if id in items then items[id] else 0.0
  }

  class DictAggregate {
    const requestIds: seq<Id>
    var items: map<Id, real>
    ghost var seen: seq<Note>

    constructor (requestIds: seq<Id>)
      ensures this.requestIds == requestIds && Valid() && seen == []
    {
      this.requestIds := requestIds;
      items, seen := map[], [];
    }

    ghost predicate Valid()
      reads this
    {
      && (forall id :: id in items ==> id in requestIds)
      && (forall id :: id in requestIds ==> Values(items)(id) == Latest(seen, id))
    }

    // reduce() over items.values(), in whatever order they come
    method Add() returns (total: real)
      requires Valid()
      ensures total == Total(Distinct(requestIds), Amounts(seen))
    {
      ghost var ids := Distinct(requestIds);
      DistinctIsASet(requestIds);
      TotalAgrees(ids, Values(items), Amounts(seen));
      total := 0.0;
      var todo := items;
      while todo.Keys != {}
        invariant todo.Keys <= items.Keys
        invariant total + Total(ids, Values(todo)) == Total(ids, Amounts(seen))
        decreases todo.Keys
      {
        var id :| id in todo.Keys;
        TotalMoves(ids, Values(todo), Values(todo - {id}), id);
        total := total + todo[id];
        todo := todo - {id};
      }
      TotalOfNothing(ids, Values(todo));
    }

    method ToProgress(value: Note) returns (amount: real)
      requires Valid() && value.id in requestIds
      modifies this`items, this`seen
      ensures Valid() && seen == old(seen) + [value]
      ensures amount == Mean(requestIds, seen)
    {
      items := items[value.id := value.amount];
      assert (seen + [value])[..|seen|] == seen;
      seen := seen + [value];
      var total := Add();
      amount := total / |requestIds| as real;
    }
  }
}
