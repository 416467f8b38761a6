/**
 * The Zustand store of src/store/serviceStore.ts: two lists (`services`, `myServices`) and a
 * `loading` flag that every action raises on entry and lowers in its `finally`.
 * Clock readings (`Date.now()`, `new Date().toISOString()`) are parameters.
 */
module ServiceStore {
  import opened Wrappers
  import opened Text
  import opened Seqs
  import opened Domain

  /** The list `fetchServices` filters: the source still has the placeholder `[]` there. */
  const PlaceholderData: seq<Service> := []

  /** The user name `fetchMyServices` selects by. */
  const CurrentUser := "currentUser"

  /**
   * The predicate inside `fetchServices`, in the source's order of early returns; together
   * the returns demand every given filter at once.
   */
  predicate Keep(s: Service, category: Option<Category>, kind: Option<Kind>, search: Option<string>): (b: bool)
    ensures b <==>
      && (category.Some? ==> s.category == category.value)
      && (kind.Some? ==> s.kind == kind.value)
      && (search.Some? && search.value != "" ==> Contains(Lower(s.title), Lower(search.value)))
  {
    if category.Some? && s.category != category.value then false
    else if kind.Some? && s.kind != kind.value then false
    else if search.Some? && search.value != "" && !Contains(Lower(s.title), Lower(search.value)) then false
    else true
  }

  /**
   * An item is kept exactly when its category matches a given category, its type matches a
   * given type, and, for a non-empty search, the lower-cased search text occurs somewhere in
   * the lower-cased title.
   */
  lemma KeepIff(s: Service, category: Option<Category>, kind: Option<Kind>, search: Option<string>)
    ensures Keep(s, category, kind, search) <==>
      && (category.Some? ==> s.category == category.value)
      && (kind.Some? ==> s.kind == kind.value)
      && (search.Some? && search.value != "" ==>
            exists i: nat :: OccursAt(Lower(s.title), Lower(search.value), i))
  {
    if search.Some? {
      ContainsIff(Lower(s.title), Lower(search.value));
    }
  }

  /** `data.filter(...)`: it only deletes items and never reorders the ones it keeps. */
  function FilterServices(data: seq<Service>, category: Option<Category>, kind: Option<Kind>, search: Option<string>): (r: seq<Service>)
    ensures |r| <= |data|
    ensures IsSubsequence(r, data)
  {
    FilterIsSubsequence(data, (s: Service) => Keep(s, category, kind, search));
    Filter(data, (s: Service) => Keep(s, category, kind, search))
  }

  /** The filter keeps exactly the matching items, each as often as it occurs. */
  lemma FilterServicesSpec(data: seq<Service>, category: Option<Category>, kind: Option<Kind>, search: Option<string>)
    ensures forall s :: s in FilterServices(data, category, kind, search) <==> s in data && Keep(s, category, kind, search)
    ensures forall s :: Keep(s, category, kind, search) ==>
      multiset(FilterServices(data, category, kind, search))[s] == multiset(data)[s]
  {
    FilterSpec(data, (s: Service) => Keep(s, category, kind, search));
  }

  predicate OwnedByCurrentUser(s: Service) {
    s.user.Some? && s.user.value.name == CurrentUser
  }

  /**
   * The record `createService` builds from three clock readings (`Date.now()`, then two
   * `toISOString()` calls, which may differ by a tick):
   * `{ id: now, created_at: createdIso, updated_at: updatedIso, ...service }`.
   * The spread comes last, so an id or timestamp the caller's object carries wins over the
   * generated one.
   */
  function Stamp(d: Draft, now: int, createdIso: string, updatedIso: string): (s: Service)
    ensures s.id == (if d.id.Some? then d.id.value else now)
    ensures s.createdAt == (if d.createdAt.Some? then d.createdAt.value else createdIso)
    ensures s.updatedAt == (if d.updatedAt.Some? then d.updatedAt.value else updatedIso)
    ensures s.title == d.title && s.description == d.description && s.category == d.category
    ensures s.kind == d.kind && s.status == d.status && s.user == d.user && s.isActive == d.isActive
    ensures s.contactName == d.contactName && s.contactNumber == d.contactNumber
  {
    Service(d.id.GetOr(now), d.title, d.description, d.category, d.kind, d.status, d.user, d.isActive,
            d.contactName, d.contactNumber, d.createdAt.GetOr(createdIso), d.updatedAt.GetOr(updatedIso))
  }

  class Store {
    var services: seq<Service>
    var myServices: seq<Service>
    var loading: bool
    /** Every value `set({ loading })` has stored, in order. */
    ghost var loadingLog: seq<bool>

    constructor ()
      ensures services == [] && myServices == [] && !loading && loadingLog == []
    {
      services, myServices, loading := [], [], false;
      loadingLog := [];
    }

    method SetLoading(b: bool)
      modifies this
      ensures loading == b && loadingLog == old(loadingLog) + [b]
      ensures services == old(services) && myServices == old(myServices)
    {
      loading := b;
      loadingLog := loadingLog + [b];
    }

    /**
     * `fetchServices(category, type, search)`: `services` becomes the filtered placeholder list,
     * which is empty whatever the filters are.
     */
    method FetchServices(category: Option<Category>, kind: Option<Kind>, search: Option<string>)
      modifies this
      ensures services == FilterServices(PlaceholderData, category, kind, search) && services == []
      ensures myServices == old(myServices)
      ensures !loading && loadingLog == old(loadingLog) + [true, false]
    {
      SetLoading(true);
      var data := PlaceholderData;
      services := FilterServices(data, category, kind, search);
      SetLoading(false);
    }

    /** `fetchMyServices`: the entries of `services` owned by the current user, in order. */
    method FetchMyServices()
      modifies this
      ensures myServices == Filter(old(services), OwnedByCurrentUser)
      ensures services == old(services)
      ensures !loading && loadingLog == old(loadingLog) + [true, false]
    {
      SetLoading(true);
      var all := services;
      myServices := Filter(all, OwnedByCurrentUser);
      SetLoading(false);
    }

    /** `createService`: the stamped record is appended at the end of both lists. */
    method CreateService(draft: Draft, now: int, createdIso: string, updatedIso: string)
      modifies this
      ensures services == old(services) + [Stamp(draft, now, createdIso, updatedIso)]
      ensures myServices == old(myServices) + [Stamp(draft, now, createdIso, updatedIso)]
      ensures !loading && loadingLog == old(loadingLog) + [true, false]
    {
      SetLoading(true);
      var created := Stamp(draft, now, createdIso, updatedIso);
      services, myServices := services + [created], myServices + [created];
      SetLoading(false);
    }

    /**
     * `updateService(service)`: in both lists, every entry with the service's id becomes the
     * service with a fresh `updated_at`; all else stays.
     */
    method UpdateService(service: Service, iso: string)
      modifies this
      ensures services == Replace(old(services), service.(updatedAt := iso))
      ensures myServices == Replace(old(myServices), service.(updatedAt := iso))
      ensures !loading && loadingLog == old(loadingLog) + [true, false]
    {
      SetLoading(true);
      var updated := service.(updatedAt := iso);
      services, myServices := Replace(services, updated), Replace(myServices, updated);
      SetLoading(false);
    }

    /** `deleteService(id)`: every entry with the id leaves both lists; the rest keep their order. */
    method DeleteService(id: int)
      modifies this
      ensures services == WithoutId(old(services), id)
      ensures myServices == WithoutId(old(myServices), id)
      ensures !loading && loadingLog == old(loadingLog) + [true, false]
    {
      SetLoading(true);
      services, myServices := WithoutId(services, id), WithoutId(myServices, id);
      SetLoading(false);
    }
  }

  /**
   * What the store's update promises about each list: length and ids unchanged, matching
   * entries become the stamped service, the others stay.
   */
  lemma StoreUpdateSpec(list: seq<Service>, service: Service, iso: string)
    ensures var t := Replace(list, service.(updatedAt := iso));
      && Ids(t) == Ids(list)
      && (forall i :: 0 <= i < |list| ==>
            t[i] == (if list[i].id == service.id then service.(updatedAt := iso) else list[i]))
      && (IdsUnique(list) ==> IdsUnique(t))
  {
    ReplaceByIdSpec(list, service.(updatedAt := iso));
  }

  /** `fetchMyServices` selects exactly the current user's entries, in order. */
  lemma MyServicesSpec(list: seq<Service>)
    ensures forall s :: s in Filter(list, OwnedByCurrentUser) <==> s in list && OwnedByCurrentUser(s)
    ensures IsSubsequence(Filter(list, OwnedByCurrentUser), list)
  {
    FilterSpec(list, OwnedByCurrentUser);
    FilterIsSubsequence(list, OwnedByCurrentUser);
  }
}
