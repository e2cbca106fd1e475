/**
 * The advertisement list (frontend/components/AdvertisementList.tsx): which list it asks the
 * service for, how it shows a list handed to it, and the delete dialog: a card's Delete button
 * records the id and opens the dialog, which is then confirmed or cancelled.
 *
 * The component's state hooks are the fields of a class and its handlers are methods, each
 * run to completion before the next. A handler's request is returned; the reply it awaits is a
 * parameter.
 */
module AdvertisementLists {
  import opened Wrappers
  import opened FrontendTypes
  import opened FrontendService
  import opened AdvertisementCards

  const LOAD_FAILED := "Failed to load advertisements. Please try again later."
  const DELETE_FAILED := "Failed to delete advertisement. Please try again later."

  /** The list a fetch asks for: a non-empty search term wins over `activeOnly`, which wins over the full list. */
  function FetchRequest(searchTerm: string, activeOnly: bool): HttpRequest {
    if searchTerm != "" then GetAdvertisementsByTitle(searchTerm)
    else if activeOnly then GetActiveAdvertisements()
    else GetAllAdvertisements()
  }

  /**
   * The fetch's URL says which of the three lists is asked for, and a title search sends the
   * term itself as its only parameter.
   */
  lemma FetchRequestPrecedence(searchTerm: string, activeOnly: bool)
    ensures FetchRequest(searchTerm, activeOnly).Get?
    ensures FetchRequest(searchTerm, activeOnly).url == API_URL + "/search" <==> searchTerm != ""
    ensures FetchRequest(searchTerm, activeOnly).url == API_URL + "/active" <==> searchTerm == "" && activeOnly
    ensures FetchRequest(searchTerm, activeOnly).url == API_URL <==> searchTerm == "" && !activeOnly
    ensures searchTerm != "" ==> FetchRequest(searchTerm, activeOnly).params == map["title" := Text(searchTerm)]
    ensures searchTerm == "" ==> FetchRequest(searchTerm, activeOnly).params == map[]
  {
    assert (API_URL + "/search")[|API_URL|..] == "/search";
    assert (API_URL + "/active")[|API_URL|..] == "/active";
  }

  /** `advertisements.filter(ad => ad.id !== id)`: the ads whose id is not `id`, in their order; an ad without an id stays. */
  function WithoutId(ads: seq<Advertisement>, id: int): (r: seq<Advertisement>)
    ensures |r| <= |ads|
    ensures forall a :: a in r <==> a in ads && a.id != Some(id)
  {
    if ads == [] then []
    else (if ads[0].id == Some(id) then [] else [ads[0]]) + WithoutId(ads[1..], id)
  }

  /** Filtering keeps the order: it filters each part of a list on its own. */
  lemma {:induction false} WithoutIdConcat(xs: seq<Advertisement>, ys: seq<Advertisement>, id: int)
    ensures WithoutId(xs + ys, id) == WithoutId(xs, id) + WithoutId(ys, id)
  {
    if xs != [] {
      assert (xs + ys)[0] == xs[0];
      assert (xs + ys)[1..] == xs[1..] + ys;
      WithoutIdConcat(xs[1..], ys, id);
    } else {
      assert xs + ys == ys;
    }
  }

  /** A list without the id already is left as it is, so a second removal changes nothing. */
  lemma {:induction false} WithoutIdAbsent(ads: seq<Advertisement>, id: int)
    requires forall i :: 0 <= i < |ads| ==> ads[i].id != Some(id)
    ensures WithoutId(ads, id) == ads
  {
    if ads != [] {
      WithoutIdAbsent(ads[1..], id);
      assert [ads[0]] + ads[1..] == ads;
    }
  }

  /** Removing an id twice is removing it once. */
  lemma WithoutIdIdempotent(ads: seq<Advertisement>, id: int)
    ensures WithoutId(WithoutId(ads, id), id) == WithoutId(ads, id)
  {
    var r := WithoutId(ads, id);
    assert forall i :: 0 <= i < |r| ==> r[i] in r;
    WithoutIdAbsent(r, id);
  }

  /** The list component. Its props are constants; `provided` is the optional list handed to it. */
  class AdvertisementList {
    const provided: Option<seq<Advertisement>>
    const activeOnly: bool
    const showControls: bool

    var advertisements: seq<Advertisement>
    var loading: bool
    var error: Option<string>
    var searchTerm: string
    var deleteDialogOpen: bool
    var advertisementToDelete: Option<int>

    /** The initial state: a provided list is shown at once, otherwise the list is loading. */
    constructor (provided: Option<seq<Advertisement>>, activeOnly: bool, showControls: bool)
      ensures this.provided == provided && this.activeOnly == activeOnly && this.showControls == showControls
      ensures advertisements == provided.GetOr([])
      ensures loading <==> provided.None?
      ensures error.None? && searchTerm == ""
      ensures !deleteDialogOpen && advertisementToDelete.None?
    {
      this.provided := provided;
      this.activeOnly := activeOnly;
      this.showControls := showControls;
      advertisements := provided.GetOr([]);
      loading := provided.None?;
      error := None;
      searchTerm := "";
      deleteDialogOpen := false;
      advertisementToDelete := None;
    }

    /**
     * `fetchAdvertisements`: it clears the error, asks for the list the search term and
     * `activeOnly` select, and shows the reply; a failure keeps the old list and sets the error.
     */
    method FetchAdvertisements(reply: Result<seq<Advertisement>, string>) returns (request: HttpRequest)
      modifies this
      ensures request == FetchRequest(old(searchTerm), activeOnly)
      ensures !loading
      ensures reply.Ok? ==> advertisements == reply.value && error.None?
      ensures reply.Err? ==> advertisements == old(advertisements) && error == Some(LOAD_FAILED)
      ensures searchTerm == old(searchTerm)
      ensures deleteDialogOpen == old(deleteDialogOpen) && advertisementToDelete == old(advertisementToDelete)
    {
      loading := true;
      error := None;
      request := FetchRequest(searchTerm, activeOnly);
      if reply.Ok? {
        advertisements := reply.value;
      } else {
        error := Some(LOAD_FAILED);
      }
      loading := false;
    }

    /** The mount effect: a provided list is shown as it is, with no request; otherwise the list is fetched. */
    method Mount(reply: Result<seq<Advertisement>, string>) returns (request: Option<HttpRequest>)
      modifies this
      ensures request.None? <==> provided.Some?
      ensures provided.Some? ==> advertisements == provided.value && !loading && error == old(error)
      ensures provided.None? ==> request == Some(FetchRequest(old(searchTerm), activeOnly)) && !loading
      ensures provided.None? && reply.Ok? ==> advertisements == reply.value && error.None?
      ensures provided.None? && reply.Err? ==> advertisements == old(advertisements) && error == Some(LOAD_FAILED)
      ensures searchTerm == old(searchTerm)
      ensures deleteDialogOpen == old(deleteDialogOpen) && advertisementToDelete == old(advertisementToDelete)
    {
      if provided.Some? {
        advertisements := provided.value;
        loading := false;
        request := None;
      } else {
        var r := FetchAdvertisements(reply);
        request := Some(r);
      }
    }

    /** Typing in the search field. */
    method SetSearchTerm(term: string)
      modifies this
      ensures searchTerm == term
      ensures advertisements == old(advertisements) && loading == old(loading) && error == old(error)
      ensures deleteDialogOpen == old(deleteDialogOpen) && advertisementToDelete == old(advertisementToDelete)
    {
      searchTerm := term;
    }

    /** `handleSearch` (also the Enter key): a fetch with the current term. */
    method HandleSearch(reply: Result<seq<Advertisement>, string>) returns (request: HttpRequest)
      modifies this
      ensures request == FetchRequest(old(searchTerm), activeOnly)
      ensures !loading
      ensures reply.Ok? ==> advertisements == reply.value && error.None?
      ensures reply.Err? ==> advertisements == old(advertisements) && error == Some(LOAD_FAILED)
      ensures searchTerm == old(searchTerm)
      ensures deleteDialogOpen == old(deleteDialogOpen) && advertisementToDelete == old(advertisementToDelete)
    {
      request := FetchAdvertisements(reply);
    }

    /** `handleClearSearch`, run step by step: the term is emptied, then the unfiltered list is fetched. */
    method HandleClearSearch(reply: Result<seq<Advertisement>, string>) returns (request: HttpRequest)
      modifies this
      ensures request == FetchRequest("", activeOnly)
      ensures searchTerm == "" && !loading
      ensures reply.Ok? ==> advertisements == reply.value && error.None?
      ensures reply.Err? ==> advertisements == old(advertisements) && error == Some(LOAD_FAILED)
      ensures deleteDialogOpen == old(deleteDialogOpen) && advertisementToDelete == old(advertisementToDelete)
    {
      searchTerm := "";
      request := FetchAdvertisements(reply);
    }

    /** `handleDelete(id)`: the id is recorded and the confirmation dialog opens; nothing else changes. */
    method HandleDelete(id: int)
      modifies this
      ensures advertisementToDelete == Some(id) && deleteDialogOpen
      ensures advertisements == old(advertisements) && loading == old(loading) && error == old(error)
      ensures searchTerm == old(searchTerm)
    {
      advertisementToDelete := Some(id);
      deleteDialogOpen := true;
    }

    /**
     * A click on the Delete button of the card showing `ad`: the list passes its delete handler
     * to its cards only when it shows its controls, and the card calls it only with a truthy id.
     */
    method DeleteFromCard(ad: Advertisement, hasOnEdit: bool)
      modifies this
      ensures showControls && TruthyNumber(ad.id) ==> advertisementToDelete == ad.id && deleteDialogOpen
      ensures !(showControls && TruthyNumber(ad.id)) ==>
        advertisementToDelete == old(advertisementToDelete) && deleteDialogOpen == old(deleteDialogOpen)
      ensures advertisements == old(advertisements) && loading == old(loading) && error == old(error)
      ensures searchTerm == old(searchTerm)
    {
      var card := new AdvertisementCard(ad, hasOnEdit, showControls);
      var deleted := card.HandleDelete();
      if deleted.Some? {
        HandleDelete(deleted.value);
      }
    }

    /**
     * `confirmDelete`: with no truthy pending id it does nothing. Otherwise it deletes that id;
     * on success every ad with that id leaves the list, the dialog closes and the pending id is
     * cleared; on failure the error is set and the list, the dialog and the pending id stay.
     */
    method ConfirmDelete(reply: Result<(), string>) returns (request: Option<HttpRequest>)
      modifies this
      ensures request.None? <==> !TruthyNumber(old(advertisementToDelete))
      ensures !TruthyNumber(old(advertisementToDelete)) ==>
        advertisements == old(advertisements) && loading == old(loading) && error == old(error)
        && deleteDialogOpen == old(deleteDialogOpen) && advertisementToDelete == old(advertisementToDelete)
      ensures TruthyNumber(old(advertisementToDelete)) ==>
        request == Some(DeleteAdvertisement(old(advertisementToDelete).value)) && !loading
      ensures TruthyNumber(old(advertisementToDelete)) && reply.Ok? ==>
        advertisements == WithoutId(old(advertisements), old(advertisementToDelete).value)
        && error == old(error) && !deleteDialogOpen && advertisementToDelete.None?
      ensures TruthyNumber(old(advertisementToDelete)) && reply.Err? ==>
        advertisements == old(advertisements) && error == Some(DELETE_FAILED)
        && deleteDialogOpen == old(deleteDialogOpen) && advertisementToDelete == old(advertisementToDelete)
      ensures searchTerm == old(searchTerm)
    {
      request := None;
      if TruthyNumber(advertisementToDelete) {
        var id := advertisementToDelete.value;
        loading := true;
        request := Some(DeleteAdvertisement(id));
        if reply.Ok? {
          advertisements := WithoutId(advertisements, id);
          deleteDialogOpen := false;
          advertisementToDelete := None;
        } else {
          error := Some(DELETE_FAILED);
        }
        loading := false;
      }
    }

    /** `cancelDelete`: the dialog closes and the pending id is cleared, with no other change. */
    method CancelDelete()
      modifies this
      ensures !deleteDialogOpen && advertisementToDelete.None?
      ensures advertisements == old(advertisements) && loading == old(loading) && error == old(error)
      ensures searchTerm == old(searchTerm)
    {
      deleteDialogOpen := false;
      advertisementToDelete := None;
    }
  }
}
