/**
 * The employee records and the list transformations the form's handlers
 * apply to them in crud-app/src/Body.js: append with the next id, replace
 * by id (`data.map`), delete by id (`data.filter`), look up by id
 * (`data.find`), and the hobby checkbox toggle.
 */
module Records {
  import opened Wrappers
  import opened Validation

  /** One stored employee. `age` is the integer `parseInt` made of the form's age. */
  datatype Employee = Employee(
    id: int,
    firstName: string,
    lastName: string,
    email: string,
    age: int,
    gender: string,
    hobbies: seq<string>,
    phone: string,
    address: string)

  /** The record carries exactly the form's field values (its id aside). */
  ghost predicate HoldsForm(e: Employee, f: Form) {
    && f.age == Some(e.age)
    && e.firstName == f.firstName && e.lastName == f.lastName && e.email == f.email
    && e.gender == f.gender && e.hobbies == f.hobbies && e.phone == f.phone && e.address == f.address
  }

  /** The record Save builds from the form. */
  function NewRecord(id: int, f: Form): (e: Employee)
    requires f.age.Some?
    ensures e.id == id && HoldsForm(e, f)
  {
    Employee(id, f.firstName, f.lastName, f.email, f.age.value, f.gender, f.hobbies, f.phone, f.address)
  }

  /** `{ ...r, firstName, ... }`: the record with the form's values and its own id. */
  function WithForm(r: Employee, f: Form): (e: Employee)
    requires f.age.Some?
    ensures e.id == r.id && HoldsForm(e, f)
  {
    r.(firstName := f.firstName, lastName := f.lastName, age := f.age.value, email := f.email,
       gender := f.gender, hobbies := f.hobbies, phone := f.phone, address := f.address)
  }

  /** The values Edit loads into the form from a record. */
  function FormOf(e: Employee): (f: Form)
    ensures HoldsForm(e, f)
  {
    Form(e.firstName, e.lastName, e.email, Some(e.age), e.gender, e.hobbies, e.phone, e.address)
  }

  /** Loading a record into the form and building a record from it gives the record back. */
  lemma FormOfRoundTrip(e: Employee)
    ensures NewRecord(e.id, FormOf(e)) == e
    ensures WithForm(e, FormOf(e)) == e
  {
  }

  /** The id Save assigns: the last record's id plus one, or 1 for an empty list. */
  function NextId(data: seq<Employee>): int {
    if |data| > 0 then data[|data| - 1].id + 1 else 1
  }

  /** Ids strictly increase along the list (so they are also pairwise distinct). */
  ghost predicate IdsIncreasing(data: seq<Employee>) {
    forall i, j :: 0 <= i < j < |data| ==> data[i].id < data[j].id
  }

  /** On a list with increasing ids the next id is larger than every id in it. */
  lemma NextIdAboveAll(data: seq<Employee>)
    requires IdsIncreasing(data)
    ensures forall e :: e in data ==> e.id < NextId(data)
  {
    forall e | e in data ensures e.id < NextId(data) {
      var i :| 0 <= i < |data| && data[i] == e;
      if i < |data| - 1 {
        assert data[i].id < data[|data| - 1].id;
      }
    }
  }

  /** Appending a record with the next id keeps the ids increasing. */
  lemma AppendKeepsIdsIncreasing(data: seq<Employee>, e: Employee)
    requires IdsIncreasing(data) && e.id == NextId(data)
    ensures IdsIncreasing(data + [e])
  {
    NextIdAboveAll(data);
    var r := data + [e];
    forall i, j | 0 <= i < j < |r| ensures r[i].id < r[j].id {
      if j == |data| {
        assert r[i] in data;
      }
    }
  }

  /**
   * `data.map(r => r.id === id ? { ...r, ...form } : r)`: same length, same
   * order, same ids; records with the id take the form's values and all
   * other records are kept as they were.
   */
  function ReplaceById(data: seq<Employee>, id: int, f: Form): (r: seq<Employee>)
    requires f.age.Some?
    ensures |r| == |data|
    ensures forall i :: 0 <= i < |data| ==> r[i].id == data[i].id
    ensures forall i :: 0 <= i < |data| && data[i].id == id ==> HoldsForm(r[i], f)
    ensures forall i :: 0 <= i < |data| && data[i].id != id ==> r[i] == data[i]
    ensures (forall e :: e in data ==> e.id != id) ==> r == data
    ensures IdsIncreasing(data) ==> IdsIncreasing(r)
  {
    seq(|data|, i requires 0 <= i < |data| => if data[i].id == id then WithForm(data[i], f) else data[i])
  }

  /** `s.filter(keep)`: the elements `keep` accepts, in their original order. */
  function Filter<T(!new)>(s: seq<T>, keep: T -> bool): (r: seq<T>)
    ensures |r| <= |s|
    ensures forall x :: x in r <==> x in s && keep(x)
    ensures forall x :: multiset(r)[x] == if keep(x) then multiset(s)[x] else 0
  {
    if |s| == 0 then []
    else
      var rest := Filter(s[1..], keep);
      assert s == [s[0]] + s[1..];
      if keep(s[0]) then [s[0]] + rest else rest
  }

  /** Filtering a concatenation filters each part and keeps their order. */
  lemma {:induction false} FilterAppend<T(!new)>(a: seq<T>, b: seq<T>, keep: T -> bool)
    ensures Filter(a + b, keep) == Filter(a, keep) + Filter(b, keep)
  {
    if |a| > 0 {
      assert (a + b)[1..] == a[1..] + b;
      FilterAppend(a[1..], b, keep);
    } else {
      assert a + b == b;
    }
  }

  /** A filter that keeps every element changes nothing. */
  lemma {:induction false} FilterKeepsAll<T(!new)>(s: seq<T>, keep: T -> bool)
    ensures (forall x :: x in s ==> keep(x)) ==> Filter(s, keep) == s
  {
    if |s| > 0 && forall x :: x in s ==> keep(x) {
      FilterKeepsAll(s[1..], keep);
      assert s == [s[0]] + s[1..];
    }
  }

  /** The tail of a list with increasing ids has increasing ids, all above the head's. */
  lemma TailIdsIncreasing(data: seq<Employee>)
    requires |data| > 0 && IdsIncreasing(data)
    ensures IdsIncreasing(data[1..])
    ensures forall e :: e in data[1..] ==> data[0].id < e.id
  {
    var rest := data[1..];
    forall i, j | 0 <= i < j < |rest| ensures rest[i].id < rest[j].id {
      assert rest[i] == data[i + 1] && rest[j] == data[j + 1];
    }
    forall e | e in rest ensures data[0].id < e.id {
      var k :| 0 <= k < |rest| && rest[k] == e;
      assert data[k + 1] == e;
    }
  }

  /** A record with an id below every id of an increasing list can head it. */
  lemma ConsIdsIncreasing(x: Employee, s: seq<Employee>)
    requires IdsIncreasing(s) && forall e :: e in s ==> x.id < e.id
    ensures IdsIncreasing([x] + s)
  {
    var r := [x] + s;
    forall i, j | 0 <= i < j < |r| ensures r[i].id < r[j].id {
      assert r[j] == s[j - 1];
      if i > 0 {
        assert r[i] == s[i - 1];
      }
    }
  }

  /** Dropping records from a list with increasing ids leaves the ids increasing. */
  lemma {:induction false} FilterKeepsIdsIncreasing(data: seq<Employee>, keep: Employee -> bool)
    ensures IdsIncreasing(data) ==> IdsIncreasing(Filter(data, keep))
  {
    if |data| > 0 && IdsIncreasing(data) {
      var rest := data[1..];
      TailIdsIncreasing(data);
      FilterKeepsIdsIncreasing(rest, keep);
      var fr := Filter(rest, keep);
      if keep(data[0]) {
        ConsIdsIncreasing(data[0], fr);
      }
    }
  }

  /** Whether a record survives the delete of `id`. */
  function KeepUnless(id: int): Employee -> bool {
    (e: Employee) => e.id != id
  }

  /** `data.filter(r => r.id !== id)`. */
  function RemoveById(data: seq<Employee>, id: int): (r: seq<Employee>)
    ensures forall e :: e in r <==> e in data && e.id != id
    ensures forall e: Employee :: e.id != id ==> multiset(r)[e] == multiset(data)[e]
    ensures (forall e :: e in data ==> e.id != id) ==> r == data
    ensures IdsIncreasing(data) ==> IdsIncreasing(r)
  {
    var keep := KeepUnless(id);
    FilterKeepsAll(data, keep);
    FilterKeepsIdsIncreasing(data, keep);
    Filter(data, keep)
  }

  /** Deleting from two consecutive parts of the list deletes from each and keeps their order. */
  lemma RemoveByIdAppend(a: seq<Employee>, b: seq<Employee>, id: int)
    ensures RemoveById(a + b, id) == RemoveById(a, id) + RemoveById(b, id)
  {
    FilterAppend(a, b, KeepUnless(id));
  }

  /** `data.find(r => r.id === id)`: the first record with the id, if any. */
  function FindById(data: seq<Employee>, id: int): (r: Option<Employee>)
    ensures r.None? <==> forall e :: e in data ==> e.id != id
    ensures r.Some? ==> exists i :: 0 <= i < |data| && data[i] == r.value && r.value.id == id &&
                                    forall j :: 0 <= j < i ==> data[j].id != id
  {
    if |data| == 0 then None
    else if data[0].id == id then Some(data[0])
    else
      var r := FindById(data[1..], id);
      assert data == [data[0]] + data[1..];
      if r.Some? then
        ghost var i :| 0 <= i < |data[1..]| && data[1..][i] == r.value && r.value.id == id &&
                       forall j :: 0 <= j < i ==> data[1..][j].id != id;
        assert data[i + 1] == r.value;
        assert forall j :: 0 <= j < i + 1 ==> data[j].id != id by {
          forall j | 1 <= j < i + 1 ensures data[j].id != id {
            assert data[j] == data[1..][j - 1];
          }
        }
        r
      else r
  }

  /** After deleting an id, looking it up finds nothing. */
  lemma FindAfterRemove(data: seq<Employee>, id: int)
    ensures FindById(RemoveById(data, id), id) == None
  {
  }

  /** After a Save, looking up the new id finds exactly the record just appended. */
  lemma SavedRecordIsFound(data: seq<Employee>, f: Form)
    requires IdsIncreasing(data) && f.age.Some?
    ensures FindById(data + [NewRecord(NextId(data), f)], NextId(data)) == Some(NewRecord(NextId(data), f))
  {
    var e := NewRecord(NextId(data), f);
    var r := data + [e];
    NextIdAboveAll(data);
    assert e in r;
    var found := FindById(r, e.id);
    forall k | 0 <= k < |data| ensures r[k].id != e.id {
      assert r[k] == data[k] && data[k] in data;
    }
    var i :| 0 <= i < |r| && r[i] == found.value && found.value.id == e.id;
    assert i == |data|;
  }

  /**
   * Deleting the record that is being edited and then submitting the edit
   * changes nothing: no record has the id any more.
   */
  lemma UpdateAfterDeleteIsNoOp(data: seq<Employee>, id: int, f: Form)
    requires f.age.Some?
    ensures ReplaceById(RemoveById(data, id), id, f) == RemoveById(data, id)
  {
  }

  /**
   * With increasing ids, loading a record into the form and saving it back
   * unchanged leaves the list as it was.
   */
  lemma EditThenUpdateUnchanged(data: seq<Employee>, id: int)
    requires IdsIncreasing(data) && FindById(data, id).Some?
    ensures ReplaceById(data, id, FormOf(FindById(data, id).value)) == data
  {
    var e := FindById(data, id).value;
    var i :| 0 <= i < |data| && data[i] == e && e.id == id;
    var r := ReplaceById(data, id, FormOf(e));
    forall k | 0 <= k < |data| ensures r[k] == data[k] {
      if data[k].id == id {
        assert k == i;
        FormOfRoundTrip(e);
      }
    }
  }

  /**
   * Ids are not reserved: deleting the last record lets the next Save hand
   * out an id no larger than the deleted one.
   */
  lemma DeleteLastLowersNextId(data: seq<Employee>)
    requires |data| > 0 && IdsIncreasing(data) && data[0].id >= 1
    ensures NextId(RemoveById(data, data[|data| - 1].id)) <= data[|data| - 1].id
  {
    RemoveLastLeavesFront(data);
    if |data| > 1 {
      assert data[..|data| - 1][|data| - 2] == data[|data| - 2];
    }
  }

  /** With increasing ids, deleting the last record's id removes just that record. */
  lemma RemoveLastLeavesFront(data: seq<Employee>)
    requires |data| > 0 && IdsIncreasing(data)
    ensures RemoveById(data, data[|data| - 1].id) == data[..|data| - 1]
  {
    var last := data[|data| - 1];
    var front := data[..|data| - 1];
    assert data == front + [last];
    RemoveByIdAppend(front, [last], last.id);
    RemoveOnlyRecord(last);
    FrontIdsBelowLast(data);
  }

  /** Deleting a record's own id from the list holding only it leaves nothing. */
  lemma RemoveOnlyRecord(e: Employee)
    ensures RemoveById([e], e.id) == []
  {
    assert e !in RemoveById([e], e.id);
  }

  /** In a list with increasing ids no earlier record shares the last one's id. */
  lemma FrontIdsBelowLast(data: seq<Employee>)
    requires |data| > 0 && IdsIncreasing(data)
    ensures forall e :: e in data[..|data| - 1] ==> e.id < data[|data| - 1].id
  {
    var front := data[..|data| - 1];
    forall e | e in front ensures e.id < data[|data| - 1].id {
      var k :| 0 <= k < |front| && front[k] == e;
      assert data[k] == e;
    }
  }

  /** Concretely: with ids 1 and 2, deleting 2 makes 2 the next id again. */
  lemma DeletedLastIdComesBack(a: Employee, b: Employee)
    requires a.id == 1 && b.id == 2
    ensures NextId(RemoveById([a, b], 2)) == 2
  {
    RemoveByIdAppend([a], [b], 2);
    assert [a] + [b] == [a, b];
    RemoveOnlyRecord(b);
    assert RemoveById([a], 2) == [a];
  }

  /**
   * The hobby checkbox: checking appends the hobby, unchecking removes every
   * copy of it; other hobbies keep their count.
   */
  function ToggleHobby(prev: seq<string>, hobby: string, checked: bool): (r: seq<string>)
    ensures hobby in r <==> checked
    ensures forall h :: h != hobby ==> multiset(r)[h] == multiset(prev)[h]
    ensures checked ==> |r| == |prev| + 1 && r[..|prev|] == prev
  {
    if checked then prev + [hobby] else Filter(prev, h => h != hobby)
  }

  /** Unchecking removes the hobby from the list and keeps the order of the rest. */
  lemma UncheckKeepsOrder(a: seq<string>, b: seq<string>, hobby: string)
    ensures ToggleHobby(a + b, hobby, false) == ToggleHobby(a, hobby, false) + ToggleHobby(b, hobby, false)
  {
    FilterAppend(a, b, h => h != hobby);
  }
}
