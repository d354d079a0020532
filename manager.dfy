/**
 * The lead manager object: the stored list, the status filter and search text
 * of the list view, the lead open in the edit form and the lead open in the
 * status picker, and the browser-storage entry every change is written to.
 * Rendering, event wiring and notifications are not modelled; the clock, the
 * confirmation dialog and the submitted form arrive as parameters.
 */
module Manager {
  import opened Text
  import opened Seqs
  import opened Leads

  /** JavaScript truthiness of an id field: null, undefined and 0 are false. */
  predicate Truthy(id: Option<int>)
  {
    id.Some? && id.value != 0
  }

  class LeadManager {
    var leads: seq<Lead>
    var currentFilter: string
    var currentSearch: string
    /** The lead the edit form was opened for; None adds a new lead. */
    var editingLeadId: Option<int>
    /** The lead the status picker was opened for. */
    var currentLeadId: Option<int>
    /** The `leads` entry of local storage. */
    var storage: StoredBlob

    /** Reloading the page would read back exactly the current list. */
    ghost predicate Persisted()
      reads this
    {
      LoadLeads(storage) == Some(leads)
    }

    /**
     * Page start-up: read the stored list (a corrupt entry makes the parse
     * throw, so it is excluded here), reset the view state, and seed the
     * example leads when the list is empty.
     */
    constructor (blob: StoredBlob, now: int)
      requires LoadLeads(blob).Some?
      ensures leads == Seeded(LoadLeads(blob).value, now)
      ensures currentFilter == AllFilter && currentSearch == ""
      ensures editingLeadId == None && currentLeadId == None
      ensures Persisted()
    {
      leads := LoadLeads(blob).value;
      currentFilter := AllFilter;
      currentSearch := "";
      editingLeadId := None;
      currentLeadId := None;
      storage := blob;
      new;
      AddSampleData(now);
    }

    /** Writes the whole list to storage. */
    method SaveToStorage()
      modifies this`storage
      ensures storage == Saved(leads)
      ensures Persisted()
    {
      storage := Saved(leads);
    }

    /** Replaces an empty list by the example leads and saves it. */
    method AddSampleData(now: int)
      requires Persisted()
      modifies this`leads, this`storage
      ensures Persisted()
      ensures leads == Seeded(old(leads), now)
      ensures |old(leads)| == 0 ==> storage == Saved(leads)
      ensures |old(leads)| != 0 ==> storage == old(storage)
    {
      if |leads| == 0 {
        leads := SampleLeads(now);
        SaveToStorage();
      }
    }

    /** Opens the edit form, for an existing lead or (None) for a new one. */
    method OpenModal(leadId: Option<int>)
      modifies this`editingLeadId
      ensures editingLeadId == leadId
    {
      editingLeadId := leadId;
    }

    method CloseModal()
      modifies this`editingLeadId
      ensures editingLeadId == None
    {
      editingLeadId := None;
    }

    method OpenStatusModal(leadId: int)
      modifies this`currentLeadId
      ensures currentLeadId == Some(leadId)
    {
      currentLeadId := Some(leadId);
    }

    method CloseStatusModal()
      modifies this`currentLeadId
      ensures currentLeadId == None
    {
      currentLeadId := None;
    }

    /**
     * Submits the lead form. With a (truthy) lead open, the first lead with
     * that id is overwritten by the form, its status reset to "new" and its
     * creation instant to `createdAt`; with none, a new lead with id `clock`
     * is put in front. Either way the list is saved and the form closed.
     */
    method SaveLead(form: LeadForm, createdAt: int, clock: int)
      modifies this`leads, this`storage, this`editingLeadId
      ensures leads == if Truthy(old(editingLeadId))
                       then EditLead(old(leads), old(editingLeadId).value, form, createdAt)
                       else AddLead(old(leads), form, createdAt, clock)
      ensures storage == Saved(leads) && Persisted()
      ensures editingLeadId == None
    {
      if Truthy(editingLeadId) {
        var index := FindIndex(leads, HasId(editingLeadId.value));
        if index != -1 {
          leads := leads[index := Merge(leads[index], form, createdAt)];
        }
      } else {
        leads := [NewLead(form, createdAt, clock)] + leads;
      }
      SaveToStorage();
      CloseModal();
    }

    /**
     * Sets the status of the lead open in the status picker. When no lead is
     * open, or no lead has its id, nothing changes; otherwise the list is
     * saved and the picker closed.
     */
    method ChangeLeadStatus(newStatus: string)
      requires Persisted()
      modifies this`leads, this`storage, this`currentLeadId
      ensures Persisted()
      ensures var found := Truthy(old(currentLeadId))
                           && FindIndex(old(leads), HasId(old(currentLeadId).value)) != -1;
        if found then
          && leads == SetStatus(old(leads), old(currentLeadId).value, newStatus)
          && storage == Saved(leads) && currentLeadId == None
        else
          leads == old(leads) && storage == old(storage) && currentLeadId == old(currentLeadId)
    {
      if Truthy(currentLeadId) {
        var index := FindIndex(leads, HasId(currentLeadId.value));
        if index != -1 {
          leads := leads[index := leads[index].(status := newStatus)];
          SaveToStorage();
          CloseStatusModal();
        }
      }
    }

    /** Deletes every lead with the id, once the user has confirmed. */
    method DeleteLead(leadId: int, confirmed: bool)
      requires Persisted()
      modifies this`leads, this`storage
      ensures Persisted()
      ensures leads == if confirmed then WithoutId(old(leads), leadId) else old(leads)
      ensures storage == if confirmed then Saved(leads) else old(storage)
    {
      if confirmed {
        leads := Filter(leads, LacksId(leadId));
        SaveToStorage();
      }
    }

    method SetFilter(status: string)
      modifies this`currentFilter
      ensures currentFilter == status
    {
      currentFilter := status;
    }

    /** Stores the search text lower-cased. */
    method SetSearch(query: string)
      modifies this`currentSearch
      ensures currentSearch == Lower(query)
    {
      currentSearch := Lower(query);
    }

    /**
     * The leads the list shows: a subsequence of the stored list that keeps
     * every occurrence of every shown lead and nothing else; everything when the filter is "all"
     * and the search is empty.
     */
    function GetFilteredLeads(): (r: seq<Lead>)
      reads this
      ensures IsSubsequence(r, leads)
      ensures forall x :: multiset(r)[x] == if Shown(x, currentFilter, currentSearch) then multiset(leads)[x] else 0
      ensures forall x :: x in r <==> x in leads && Shown(x, currentFilter, currentSearch)
      ensures currentFilter == AllFilter && currentSearch == "" ==> r == leads
    {
      FilteredLeadsSpec(leads, currentFilter, currentSearch);
      FilteredLeads(leads, currentFilter, currentSearch)
    }

    /**
     * The per-status counts of the summary: each is the number of leads with
     * exactly that status, and together they are at most the list length.
     */
    function UpdateStats(): (r: StatusCounts)
      reads this
      ensures var statuses := multiset(StatusesOf(leads));
        r == StatusCounts(statuses[New], statuses[Processing], statuses[Negative],
                          statuses[Positive], statuses[Closed])
      ensures Total(r) <= |leads|
    {
      CountIsMultiplicity(leads, New);
      CountIsMultiplicity(leads, Processing);
      CountIsMultiplicity(leads, Negative);
      CountIsMultiplicity(leads, Positive);
      CountIsMultiplicity(leads, Closed);
      StatsTotal(leads);
      Stats(leads)
    }
  }
}
