/**
 * The client's listing record (src/types/service.ts) and the list operations the state
 * containers apply to it: look up by id, replace by id, remove by id.
 */
module Domain {
  import opened Wrappers
  import opened Seqs

  datatype Category = Bike | Lift | Tuition | Notes | Room
  datatype Kind = Offer | Request
  datatype Status = Active | Inactive | Pending | Completed

  datatype ServiceUser = ServiceUser(id: string, name: string)

  /**
   * A service listing. Price, location, images and rating are carried by the UI only and are
   * not part of this model.
   */
  datatype Service = Service(
    id: int,
    title: string,
    description: string,
    category: Category,
    kind: Kind,
    status: Status,
    user: Option<ServiceUser>,
    isActive: Option<bool>,
    contactName: Option<string>,
    contactNumber: Option<string>,
    createdAt: string,
    updatedAt: string)

  /**
   * A listing without id and timestamps, as callers pass to "create". The type forbids those
   * three keys, but at run time an object may still carry them: `id`, `createdAt` and
   * `updatedAt` record such stray keys.
   */
  datatype Draft = Draft(
    title: string,
    description: string,
    category: Category,
    kind: Kind,
    status: Status,
    user: Option<ServiceUser>,
    isActive: Option<bool>,
    contactName: Option<string>,
    contactNumber: Option<string>,
    id: Option<int>,
    createdAt: Option<string>,
    updatedAt: Option<string>)

  /** Query parameters (`ServiceSearchParams`), held by the context as its filters. */
  datatype SearchParams = SearchParams(
    category: Option<Category>,
    kind: Option<Kind>,
    status: Option<Status>,
    city: Option<string>,
    page: Option<int>,
    limit: Option<int>,
    keyword: Option<string>)

  const NoFilters := SearchParams(None, None, None, None, None, None, None)

  function Ids(s: seq<Service>): (ids: seq<int>)
    ensures |ids| == |s| && forall i :: 0 <= i < |s| ==> ids[i] == s[i].id
  {
    seq(|s|, i requires 0 <= i < |s| => s[i].id)
  }

  /** `services.find(s => s.id === id)` finds something. */
  predicate HasId(s: seq<Service>, id: int) {
    id in Ids(s)
  }

  /** No two entries share an id. */
  predicate IdsUnique(s: seq<Service>) {
    forall i, j :: 0 <= i < j < |s| ==> s[i].id != s[j].id
  }

  /** `services.map(s => s.id === x.id ? x : s)`. */
  function Replace(s: seq<Service>, x: Service): (r: seq<Service>)
    ensures |r| == |s|
    ensures forall i :: 0 <= i < |r| ==> r[i].id == s[i].id
  {
    seq(|s|, i requires 0 <= i < |s| => if s[i].id == x.id then x else s[i])
  }

  /** `services.filter(s => s.id !== id)`. */
  function WithoutId(s: seq<Service>, id: int): (r: seq<Service>)
    ensures |r| <= |s|
    ensures forall t :: t in r ==> t in s && t.id != id
  {
    FilterSpec(s, (t: Service) => t.id != id);
    Filter(s, (t: Service) => t.id != id)
  }

  /**
   * Replacing by id keeps length, order and the id at every position, changes exactly the
   * entries whose id matches, and so keeps ids unique; with no match nothing changes.
   */
  lemma ReplaceByIdSpec(s: seq<Service>, x: Service)
    ensures Ids(Replace(s, x)) == Ids(s)
    ensures forall i :: 0 <= i < |s| ==>
      (s[i].id == x.id ==> Replace(s, x)[i] == x) && (s[i].id != x.id ==> Replace(s, x)[i] == s[i])
    ensures IdsUnique(s) ==> IdsUnique(Replace(s, x))
    ensures !HasId(s, x.id) ==> Replace(s, x) == s
    ensures HasId(s, x.id) ==> x in Replace(s, x)
  {
    if HasId(s, x.id) {
      var i :| 0 <= i < |s| && Ids(s)[i] == x.id;
      assert Replace(s, x)[i] == x;
    }
  }

  /**
   * Removing by id leaves no entry with that id, keeps every other entry (as often as it
   * occurred) in its original order, keeps ids unique, and shrinks the list when the id was there.
   */
  lemma WithoutIdSpec(s: seq<Service>, id: int)
    ensures !HasId(WithoutId(s, id), id)
    ensures forall x: Service :: x.id != id ==> multiset(WithoutId(s, id))[x] == multiset(s)[x]
    ensures IsSubsequence(WithoutId(s, id), s)
    ensures IdsUnique(s) ==> IdsUnique(WithoutId(s, id))
    ensures HasId(s, id) ==> |WithoutId(s, id)| < |s|
  {
    var r := WithoutId(s, id);
    FilterSpec(s, (t: Service) => t.id != id);
    forall i | 0 <= i < |r| ensures r[i].id != id {
      assert r[i] in r;
    }
    FilterIsSubsequence(s, (t: Service) => t.id != id);
    if IdsUnique(s) {
      WithoutIdUnique(s, id);
    }
    WithoutIdShrinks(s, id);
  }

  lemma WithoutIdKeepsIdsFrom(t: seq<Service>, id: int, v: int)
    requires HasId(WithoutId(t, id), v)
    ensures HasId(t, v)
  {
    var r := WithoutId(t, id);
    FilterSpec(t, (x: Service) => x.id != id);
    var k :| 0 <= k < |r| && Ids(r)[k] == v;
    assert r[k] in r;
    var m :| 0 <= m < |t| && t[m] == r[k];
    assert Ids(t)[m] == v;
  }

  lemma {:induction false} WithoutIdUnique(s: seq<Service>, id: int)
    requires IdsUnique(s)
    ensures IdsUnique(WithoutId(s, id))
    decreases |s|
  {
    if |s| > 0 {
      assert s == [s[0]] + s[1..];
      PrependUnique(s[1..], s[0]);
      WithoutIdUnique(s[1..], id);
      var rest := WithoutId(s[1..], id);
      if s[0].id != id {
        assert WithoutId(s, id) == [s[0]] + rest;
        if HasId(rest, s[0].id) {
          WithoutIdKeepsIdsFrom(s[1..], id, s[0].id);
        }
        PrependUnique(rest, s[0]);
      } else {
        assert WithoutId(s, id) == rest;
      }
    }
  }

  lemma {:induction false} WithoutIdShrinks(s: seq<Service>, id: int)
    ensures HasId(s, id) ==> |WithoutId(s, id)| < |s|
    decreases |s|
  {
    if |s| > 0 && HasId(s, id) {
      var rest := WithoutId(s[1..], id);
      if s[0].id == id {
        assert WithoutId(s, id) == rest;
      } else {
        var k :| 0 <= k < |s| && Ids(s)[k] == id;
        assert Ids(s[1..])[k - 1] == id;
        WithoutIdShrinks(s[1..], id);
        assert WithoutId(s, id) == [s[0]] + rest;
      }
    }
  }

  /** Prepending keeps ids unique exactly when the new entry's id is not already present. */
  lemma PrependUnique(s: seq<Service>, x: Service)
    ensures IdsUnique([x] + s) <==> IdsUnique(s) && !HasId(s, x.id)
  {
    var t := [x] + s;
    if IdsUnique(t) {
      forall i, j | 0 <= i < j < |s| ensures s[i].id != s[j].id {
        assert t[i + 1] == s[i] && t[j + 1] == s[j];
      }
      forall k | 0 <= k < |s| ensures Ids(s)[k] != x.id {
        assert t[0] == x && t[k + 1] == s[k];
      }
    }
    if IdsUnique(s) && !HasId(s, x.id) {
      forall i, j | 0 <= i < j < |t| ensures t[i].id != t[j].id {
        if i == 0 {
          assert Ids(s)[j - 1] == t[j].id;
        } else {
          assert t[i] == s[i - 1] && t[j] == s[j - 1];
        }
      }
    }
  }
}
