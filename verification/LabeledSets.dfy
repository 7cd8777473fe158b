/** Resources with labels and id-keyed sets of them. */
module LabeledSets {
  import opened GoStrings

  /** A resource with an id and labels; references, so that "the same object" means
      something. */
  class Labeled {
    const id: string
    const labels: seq<string>

    constructor (id: string, labels: seq<string>)
      ensures this.id == id && this.labels == labels
    {
      this.id := id;
      this.labels := labels;
    }
  }

  ghost predicate SortedById(s: seq<Labeled>) {
    forall i, j :: 0 <= i < j < |s| ==> Less(s[i].id, s[j].id)
  }

  /** Places `l` before the first element with a larger id. */
  method InsertById(s: seq<Labeled>, l: Labeled) returns (r: seq<Labeled>)
    requires SortedById(s) && forall x :: x in s ==> x.id != l.id
    ensures SortedById(r) && forall x :: x in r <==> x in s || x == l
  {
    var i := 0;
    while i < |s| && Less(s[i].id, l.id)
      invariant 0 <= i <= |s|
      invariant forall k :: 0 <= k < i ==> Less(s[k].id, l.id)
    {
      i := i + 1;
    }
    r := s[..i] + [l] + s[i..];
    InsertedInOrder(s, l, i);
  }

  lemma InsertedInOrder(s: seq<Labeled>, l: Labeled, i: nat)
    requires SortedById(s) && i <= |s| && (i < |s| ==> s[i].id != l.id && !Less(s[i].id, l.id))
    requires forall k :: 0 <= k < i ==> Less(s[k].id, l.id)
    ensures var r := s[..i] + [l] + s[i..]; SortedById(r) && forall x :: x in r <==> x in s || x == l
  {
    forall k | i <= k < |s| ensures Less(l.id, s[k].id) {
      LessTotal(l.id, s[i].id);
      if i < k {
        LessTransitive(l.id, s[i].id, s[k].id);
      }
    }
    var r := s[..i] + [l] + s[i..];
    forall j, k | 0 <= j < k < |r| ensures Less(r[j].id, r[k].id) {
      assert r[j] == if j < i then s[j] else if j == i then l else s[j - 1];
      assert r[k] == if k < i then s[k] else if k == i then l else s[k - 1];
    }
    forall x ensures x in r <==> x in s || x == l {
      assert s == s[..i] + s[i..];
    }
  }

  class LabeledSet {
    var set_: map<string, Labeled>

    /** Every member is stored under its own id. */
    ghost predicate Valid()
      reads this
    {
      forall id :: id in set_ ==> set_[id].id == id
    }

    constructor ()
      ensures Valid() && set_ == map[]
    {
      set_ := map[];
    }

    method Add(l: Labeled)
      requires Valid()
      modifies this
      ensures Valid() && set_ == old(set_)[l.id := l]
    {
      set_ := set_[l.id := l];
    }

    method Remove(id: string)
      requires Valid()
      modifies this
      ensures Valid() && set_ == old(set_) - {id}
    {
      set_ := set_ - {id};
    }

    function Get(id: string): (l: Labeled?)
      requires Valid()
      reads this
      ensures l == null <==> id !in set_
      ensures l != null ==> l == set_[id] && l.id == id
    {
      if id in set_ then set_[id] else null
    }

    predicate Contains(id: string)
      requires Valid()
      reads this
    {
      Get(id) != null
    }

    /** The members in increasing order of id, whatever order the map delivers them in. */
    method Slice() returns (slice: seq<Labeled>)
      requires Valid()
      ensures SortedById(slice)
      ensures forall l :: l in slice <==> l.id in set_ && set_[l.id] == l
    {
      slice := [];
      var pending := set_.Keys;
      while pending != {}
        invariant pending <= set_.Keys
        invariant SortedById(slice)
        invariant forall l :: l in slice <==> l.id in set_ && l.id !in pending && set_[l.id] == l
        decreases |pending|
      {
        var id :| id in pending;
        slice := InsertById(slice, set_[id]);
        pending := pending - {id};
      }
    }
  }
}
