/** The rows a profile owns in a child table (work experiences, social
    links): each row names its profile and its `displayOrder`. The table is
    kept in insertion order; the rows of one profile, read in that order, are
    numbered 0, 1, 2, ... */
module Children {
  import opened Seqs

  datatype Row<T> = Row(profileId: nat, displayOrder: nat, data: T)

  /** A row as a reply lists it: its position and its columns, without the
      profile it belongs to. */
  datatype Child<T> = Child(displayOrder: nat, data: T)

  /** `rows.map(r => ({ ...columns, displayOrder }))` */
  function Unowned<T>(rows: seq<Row<T>>): (r: seq<Child<T>>)
    ensures |r| == |rows|
    ensures forall i :: 0 <= i < |r| ==> r[i] == Child(rows[i].displayOrder, rows[i].data)
  {
    seq(|rows|, i requires 0 <= i < |rows| => Child(rows[i].displayOrder, rows[i].data))
  }

  function Of<T>(pid: nat): Row<T> -> bool {
    (r: Row<T>) => r.profileId == pid
  }

  function NotOf<T>(pid: nat): Row<T> -> bool {
    (r: Row<T>) => r.profileId != pid
  }

  /** `findMany({ where: { profileId } })`, in table order. */
  function ChildrenOf<T>(rows: seq<Row<T>>, pid: nat): seq<Row<T>> {
    Filter(rows, Of(pid))
  }

  /** `items.map((item, index) => ({ profileId, ...item, displayOrder: index }))` */
  function Numbered<T>(pid: nat, items: seq<T>): (r: seq<Row<T>>)
    ensures |r| == |items|
    ensures forall i :: 0 <= i < |r| ==> r[i] == Row(pid, i, items[i])
    ensures forall x :: x in r ==> x.profileId == pid
  {
    seq(|items|, i requires 0 <= i < |items| => Row(pid, i, items[i]))
  }

  /** Each row's `displayOrder` is its position. */
  ghost predicate Numbering<T>(c: seq<Row<T>>) {
    forall i :: 0 <= i < |c| ==> c[i].displayOrder == i
  }

  /** Every profile's rows, in table order, are numbered from 0 up; so reading
      them in table order is reading them `orderBy: { displayOrder: 'asc' }`. */
  ghost predicate AllNumbered<T>(rows: seq<Row<T>>) {
    forall pid :: Numbering(ChildrenOf(rows, pid))
  }

  /** `deleteMany({ where: { profileId } })` */
  function Without<T>(rows: seq<Row<T>>, pid: nat): (r: seq<Row<T>>)
    ensures forall i :: 0 <= i < |r| ==> r[i].profileId != pid
  {
    Filter(rows, NotOf(pid))
  }

  /** `deleteMany` followed by `createMany` of `items`: the profile's rows
      are exactly the new ones, and every other profile's row is kept. */
  function Replace<T>(rows: seq<Row<T>>, pid: nat, items: seq<T>): (r: seq<Row<T>>)
    ensures forall x :: x in r && x.profileId == pid ==> x in Numbered(pid, items)
    ensures forall x :: x in Numbered(pid, items) ==> x in r
    ensures forall x :: x in rows && x.profileId != pid ==> x in r
  {
    Without(rows, pid) + Numbered(pid, items)
  }

  lemma {:induction false} NumberedIsNumbering<T>(pid: nat, items: seq<T>)
    ensures Numbering(Numbered(pid, items))
    ensures ChildrenOf(Numbered(pid, items), pid) == Numbered(pid, items)
    ensures forall q :: q != pid ==> ChildrenOf(Numbered(pid, items), q) == []
  {
    FilterAll(Numbered(pid, items), Of(pid));
    forall q | q != pid ensures ChildrenOf(Numbered(pid, items), q) == [] {
      FilterNone(Numbered(pid, items), Of(q));
    }
  }

  /** Deleting a profile's rows leaves it none and leaves every other
      profile's rows exactly as they were. */
  lemma {:induction false} WithoutEffect<T>(rows: seq<Row<T>>, pid: nat)
    ensures ChildrenOf(Without(rows, pid), pid) == []
    ensures forall q :: q != pid ==> ChildrenOf(Without(rows, pid), q) == ChildrenOf(rows, q)
  {
    FilterNone(Without(rows, pid), Of(pid));
    forall q | q != pid ensures ChildrenOf(Without(rows, pid), q) == ChildrenOf(rows, q) {
      FilterFilter(rows, NotOf(pid), Of(q));
    }
  }

  /** Appending numbered rows for a profile that has none gives it exactly
      those rows and changes no other profile's. */
  lemma {:induction false} AppendEffect<T>(rows: seq<Row<T>>, pid: nat, items: seq<T>)
    requires forall i :: 0 <= i < |rows| ==> rows[i].profileId != pid
    ensures ChildrenOf(rows + Numbered(pid, items), pid) == Numbered(pid, items)
    ensures forall q :: q != pid ==> ChildrenOf(rows + Numbered(pid, items), q) == ChildrenOf(rows, q)
  {
    var n := Numbered(pid, items);
    FilterConcat(rows, n, Of(pid));
    FilterNone(rows, Of(pid));
    NumberedIsNumbering(pid, items);
    forall q | q != pid ensures ChildrenOf(rows + n, q) == ChildrenOf(rows, q) {
      FilterConcat(rows, n, Of(q));
      assert ChildrenOf(n, q) == [];
    }
  }

  /** Replacing a profile's rows gives it exactly the new ones, numbered by
      position, and changes no other profile's rows. */
  lemma ReplaceEffect<T>(rows: seq<Row<T>>, pid: nat, items: seq<T>)
    ensures ChildrenOf(Replace(rows, pid, items), pid) == Numbered(pid, items)
    ensures forall q :: q != pid ==> ChildrenOf(Replace(rows, pid, items), q) == ChildrenOf(rows, q)
  {
    WithoutEffect(rows, pid);
    AppendEffect(Without(rows, pid), pid, items);
  }

  /** The numbering invariant survives each of the three table updates. */
  lemma AllNumberedKept<T>(rows: seq<Row<T>>, pid: nat, items: seq<T>)
    requires AllNumbered(rows)
    ensures AllNumbered(Without(rows, pid))
    ensures AllNumbered(Replace(rows, pid, items))
    ensures (forall i :: 0 <= i < |rows| ==> rows[i].profileId != pid) ==> AllNumbered(rows + Numbered(pid, items))
  {
    WithoutNumbered(rows, pid);
    ReplaceNumbered(rows, pid, items);
    if forall i :: 0 <= i < |rows| ==> rows[i].profileId != pid {
      AppendNumbered(rows, pid, items);
    }
  }

  lemma WithoutNumbered<T>(rows: seq<Row<T>>, pid: nat)
    requires AllNumbered(rows)
    ensures AllNumbered(Without(rows, pid))
  {
    WithoutEffect(rows, pid);
    assert Numbering<T>([]);
  }

  lemma ReplaceNumbered<T>(rows: seq<Row<T>>, pid: nat, items: seq<T>)
    requires AllNumbered(rows)
    ensures AllNumbered(Replace(rows, pid, items))
  {
    ReplaceEffect(rows, pid, items);
    NumberedIsNumbering(pid, items);
  }

  lemma AppendNumbered<T>(rows: seq<Row<T>>, pid: nat, items: seq<T>)
    requires AllNumbered(rows)
    requires forall i :: 0 <= i < |rows| ==> rows[i].profileId != pid
    ensures AllNumbered(rows + Numbered(pid, items))
  {
    AppendEffect(rows, pid, items);
    NumberedIsNumbering(pid, items);
    assert Numbering<T>([]);
  }
}
