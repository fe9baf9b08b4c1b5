/**
 * The three admin list views (projects, certificates, experiences) share one
 * shape: a list fetched from the database, a loading flag, an editor dialog
 * that is either closed, open for a new record or open on the record being
 * edited, and a delete that removes a row from the list only once the
 * database has confirmed it. `ListView` is that shape; `ProjectsManager`,
 * `CertificatesManager` and `ExperienceManager` each hold one.
 */
module ListViews {
  import opened Wrappers
  import opened Seqs
  import opened Records
  import opened Remote

  /** The test `r.id !== id` of the delete filter. */
  function IdDiffers<T>(idOf: T -> string, id: string): T -> bool {
    r => idOf(r) != id
  }

  /** `list.filter(r => r.id !== id)`. */
  function RemoveById<T>(items: seq<T>, idOf: T -> string, id: string): seq<T> {
    Filter(items, IdDiffers(idOf, id))
  }

  /**
   * After a delete no row carries the deleted id, every row with another id
   * is still listed as often as before, and the order is kept.
   */
  lemma RemoveByIdSpec<T>(items: seq<T>, idOf: T -> string, id: string)
    ensures forall i :: 0 <= i < |RemoveById(items, idOf, id)| ==> idOf(RemoveById(items, idOf, id)[i]) != id
    ensures forall x :: idOf(x) != id ==> multiset(RemoveById(items, idOf, id))[x] == multiset(items)[x]
    ensures IsSubsequence(RemoveById(items, idOf, id), items)
  {
    FilterMembers(items, IdDiffers(idOf, id));
    FilterIsSubsequence(items, IdDiffers(idOf, id));
    forall x | idOf(x) != id
      ensures multiset(RemoveById(items, idOf, id))[x] == multiset(items)[x]
    {
      FilterCounts(items, IdDiffers(idOf, id), x);
    }
  }

  /** Deleting an id nobody has leaves the list as it is; so does deleting the same id twice. */
  lemma RemoveAbsentId<T>(items: seq<T>, idOf: T -> string, id: string)
    requires forall i :: 0 <= i < |items| ==> idOf(items[i]) != id
    ensures RemoveById(items, idOf, id) == items
    ensures RemoveById(RemoveById(items, idOf, id), idOf, id) == RemoveById(items, idOf, id)
  {
    FilterKeepsAll(items, IdDiffers(idOf, id));
  }

  /** Deleting twice is deleting once. */
  lemma RemoveByIdIdempotent<T>(items: seq<T>, idOf: T -> string, id: string)
    ensures RemoveById(RemoveById(items, idOf, id), idOf, id) == RemoveById(items, idOf, id)
  {
    FilterIdempotent(items, IdDiffers(idOf, id));
  }

  /** No two rows share an id (the database's primary key). */
  ghost predicate UniqueIds<T>(items: seq<T>, idOf: T -> string) {
    forall i, j :: 0 <= i < j < |items| ==> idOf(items[i]) != idOf(items[j])
  }

  /** With unique ids, deleting a listed id removes exactly one row. */
  lemma {:induction false} RemoveListedIdRemovesOne<T>(items: seq<T>, idOf: T -> string, k: nat)
    requires UniqueIds(items, idOf) && k < |items|
    ensures |RemoveById(items, idOf, idOf(items[k]))| == |items| - 1
  {
    var id := idOf(items[k]);
    var rest := items[1..];
    assert UniqueIds(rest, idOf) by {
      forall i, j | 0 <= i < j < |rest| ensures idOf(rest[i]) != idOf(rest[j]) {
        assert rest[i] == items[i + 1] && rest[j] == items[j + 1];
      }
    }
    if k == 0 {
      forall i | 0 <= i < |rest| ensures IdDiffers(idOf, id)(rest[i]) {
        assert rest[i] == items[i + 1];
      }
      FilterKeepsAll(rest, IdDiffers(idOf, id));
    } else {
      assert items[k] == rest[k - 1];
      RemoveListedIdRemovesOne(rest, idOf, k - 1);
    }
  }

  /**
   * An admin list. `editing` is the record the editor was opened on; the
   * "new" button opens the editor without one.
   */
  class ListView<T> {
    /** How a record's id is read. */
    const idOf: T -> string
    var items: seq<T>
    var loading: bool
    var isFormOpen: bool
    var editing: Option<T>

    /** A record is only ever being edited while the editor is open. */
    ghost predicate Valid()
      reads this
    {
      editing.Some? ==> isFormOpen
    }

    /** Mounting: an empty list, loading, the editor closed. */
    constructor (idOf: T -> string)
      ensures Valid()
      ensures this.idOf == idOf
      ensures items == [] && loading && !isFormOpen && editing.None?
    {
      this.idOf := idOf;
      items := [];
      loading := true;
      isFormOpen := false;
      editing := None;
    }

    /** The fetch with the database's answer: rows replace the list, a failure keeps it; loading ends. */
    method Fetch(reply: Reply<seq<T>>)
      requires Valid()
      modifies this
      ensures Valid()
      ensures items == AdminFetch(old(items), reply)
      ensures !loading
      ensures isFormOpen == old(isFormOpen) && editing == old(editing)
    {
      items := AdminFetch(items, reply);
      loading := false;
    }

    /**
     * `handleDelete`: nothing happens unless the admin confirms; a confirmed
     * delete is sent, and the row leaves the list only when the database
     * reports no error.
     */
    method HandleDelete(id: string, confirmed: bool, reply: Ack) returns (requested: bool)
      requires Valid()
      modifies this
      ensures Valid()
      ensures requested <==> confirmed
      ensures confirmed && reply == Done ==> items == RemoveById(old(items), idOf, id)
      ensures !(confirmed && reply == Done) ==> items == old(items)
      ensures forall i :: 0 <= i < |items| ==> items[i] in old(items)
      ensures loading == old(loading) && isFormOpen == old(isFormOpen) && editing == old(editing)
    {
      if !confirmed {
        return false;
      }
      requested := true;
      if reply == Done {
        FilterMembers(items, IdDiffers(idOf, id));
        items := RemoveById(items, idOf, id);
      }
    }

    /** The "new" button opens the editor; a closed editor has no record, so it opens empty. */
    method OpenNew()
      requires Valid()
      modifies this
      ensures Valid()
      ensures isFormOpen
      ensures editing == old(editing)
      ensures !old(isFormOpen) ==> editing.None?
      ensures items == old(items) && loading == old(loading)
    {
      isFormOpen := true;
    }

    /** `handleEdit`: the editor opens on `r`. */
    method HandleEdit(r: T)
      requires Valid()
      modifies this
      ensures Valid()
      ensures isFormOpen && editing == Some(r)
      ensures items == old(items) && loading == old(loading)
    {
      editing := Some(r);
      isFormOpen := true;
    }

    /** `handleFormClose` (cancel or after a save): the editor closes and forgets its record, and the list is fetched again. */
    method HandleFormClose(reply: Reply<seq<T>>)
      requires Valid()
      modifies this
      ensures Valid()
      ensures !isFormOpen && editing.None?
      ensures items == AdminFetch(old(items), reply)
      ensures !loading
    {
      isFormOpen := false;
      editing := None;
      Fetch(reply);
    }
  }

  /** The projects list: a list view over projects, keyed by their id. */
  class ProjectsManager {
    const list: ListView<Project>

    constructor ()
      ensures fresh(list) && list.Valid()
      ensures forall p: Project :: list.idOf(p) == p.id
      ensures list.items == [] && list.loading && !list.isFormOpen && list.editing.None?
    {
      list := new ListView<Project>((p: Project) => p.id);
    }
  }

  /** The experiences list: a list view over experiences, keyed by their id. */
  class ExperienceManager {
    const list: ListView<Experience>

    constructor ()
      ensures fresh(list) && list.Valid()
      ensures forall e: Experience :: list.idOf(e) == e.id
      ensures list.items == [] && list.loading && !list.isFormOpen && list.editing.None?
    {
      list := new ListView<Experience>((e: Experience) => e.id);
    }
  }

  /** The certificates list adds an image preview over the list, independent of the editor. */
  class CertificatesManager {
    const list: ListView<Certificate>
    var preview: Option<Certificate>

    constructor ()
      ensures fresh(list) && list.Valid()
      ensures forall c: Certificate :: list.idOf(c) == c.id
      ensures list.items == [] && list.loading && !list.isFormOpen && list.editing.None?
      ensures preview.None?
    {
      list := new ListView<Certificate>((c: Certificate) => c.id);
      preview := None;
    }

    /** The eye button or the thumbnail opens the preview of `c`. */
    method ShowPreview(c: Certificate)
      modifies this
      ensures preview == Some(c)
    {
      preview := Some(c);
    }

    /** The backdrop or the close button closes the preview. */
    method ClosePreview()
      modifies this
      ensures preview.None?
    {
      preview := None;
    }
  }
}
