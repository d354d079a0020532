/**
 * The lead records of the lead manager and the pure operations over a list of
 * them: the status/search query behind the card list, the per-status counts,
 * and the list each mutating operation leaves behind (add, edit, status
 * change, delete, first-run seeding), with the properties they keep.
 */
module Leads {
  import opened Text
  import opened Seqs

  datatype Option<T> = None | Some(value: T)

  /** The five statuses the UI offers; `status` itself is any string. */
  const New: string := "new"
  const Processing: string := "processing"
  const Negative: string := "negative"
  const Positive: string := "positive"
  const Closed: string := "closed"
  const KnownStatuses: seq<string> := [New, Processing, Negative, Positive, Closed]

  /** The status filter value that lets every lead through. */
  const AllFilter: string := "all"

  /** One day in milliseconds, the spacing of the seeded creation dates. */
  const DayMillis: int := 86400000

  /**
   * One stored lead. `createdAt` is the instant of creation in milliseconds;
   * the program stores it as that instant's ISO-8601 text.
   */
  datatype Lead = Lead(
    id: int,
    name: string,
    phone: string,
    email: string,
    marketplace: string,
    status: string,
    notes: string,
    createdAt: int)

  /** The values the lead form submits. */
  datatype LeadForm = LeadForm(
    name: string,
    phone: string,
    email: string,
    marketplace: string,
    notes: string)

  // ---------------------------------------------------------------------
  // Element predicates handed to filter / findIndex

  function HasId(id: int): Lead -> bool { (l: Lead) => l.id == id }
  function LacksId(id: int): Lead -> bool { (l: Lead) => l.id != id }
  function HasStatus(status: string): Lead -> bool { (l: Lead) => l.status == status }
  function MatchesQuery(query: string): Lead -> bool { (l: Lead) => MatchesSearch(l, query) }

  /**
   * The search rule: the query occurs in the lower-cased name, the phone as
   * typed, or the lower-cased email, marketplace or notes.
   */
  predicate MatchesSearch(lead: Lead, query: string)
  {
    || Contains(Lower(lead.name), query)
    || Contains(lead.phone, query)
    || Contains(Lower(lead.email), query)
    || Contains(Lower(lead.marketplace), query)
    || Contains(Lower(lead.notes), query)
  }

  // ---------------------------------------------------------------------
  // Query

  /**
   * The leads shown for a status filter and a search text: the status filter
   * first (unless it is "all"), then the search (unless the text is empty).
   */
  function FilteredLeads(leads: seq<Lead>, filter: string, search: string): (r: seq<Lead>)
    ensures filter == AllFilter && search == "" ==> r == leads
    ensures |r| <= |leads|
  {
    var byStatus := if filter != AllFilter then Filter(leads, HasStatus(filter)) else leads;
    if search != "" then Filter(byStatus, MatchesQuery(search)) else byStatus
  }

  /** Whether a lead is shown under a status filter and a search text. */
  predicate Shown(lead: Lead, filter: string, search: string)
  {
    (filter == AllFilter || lead.status == filter) && (search == "" || MatchesSearch(lead, search))
  }

  /**
   * The query keeps the stored order, keeps every occurrence of every shown
   * lead and drops every other lead.
   */
  lemma FilteredLeadsSpec(leads: seq<Lead>, filter: string, search: string)
    ensures IsSubsequence(FilteredLeads(leads, filter, search), leads)
    ensures forall x :: multiset(FilteredLeads(leads, filter, search))[x]
                        == if Shown(x, filter, search) then multiset(leads)[x] else 0
    ensures forall x :: x in FilteredLeads(leads, filter, search) <==> x in leads && Shown(x, filter, search)
  {
    var r := FilteredLeads(leads, filter, search);
    var byStatus := if filter != AllFilter then Filter(leads, HasStatus(filter)) else leads;
    if filter != AllFilter {
      FilterIsSubsequence(leads, HasStatus(filter));
    } else {
      SubsequenceReflexive(leads);
    }
    if search != "" {
      FilterIsSubsequence(byStatus, MatchesQuery(search));
      SubsequenceTransitive(r, byStatus, leads);
    }
    forall x
      ensures multiset(r)[x] == if Shown(x, filter, search) then multiset(leads)[x] else 0
    {
      if filter != AllFilter {
        FilterMultiplicity(leads, HasStatus(filter), x);
      }
      if search != "" {
        FilterMultiplicity(byStatus, MatchesQuery(search), x);
      }
    }
    forall x
      ensures x in r <==> x in leads && Shown(x, filter, search)
    {
      assert x in r <==> multiset(r)[x] > 0;
      assert x in leads <==> multiset(leads)[x] > 0;
    }
  }

  /** The search text "olx" finds a lead whose marketplace is "OLX". */
  lemma SearchIgnoresCaseExample(lead: Lead)
    requires lead.marketplace == "OLX"
    ensures FilteredLeads([lead], AllFilter, Lower("olx")) == [lead]
  {
  }

  /**
   * A query typed in any case finds every lead whose name, email,
   * marketplace or notes contains it in that case.
   */
  lemma SearchIgnoresCase(lead: Lead, typed: string)
    requires || Contains(lead.name, typed) || Contains(lead.email, typed)
             || Contains(lead.marketplace, typed) || Contains(lead.notes, typed)
    ensures MatchesSearch(lead, Lower(typed))
  {
    if Contains(lead.name, typed) {
      ContainsLower(lead.name, typed);
    } else if Contains(lead.email, typed) {
      ContainsLower(lead.email, typed);
    } else if Contains(lead.marketplace, typed) {
      ContainsLower(lead.marketplace, typed);
    } else {
      ContainsLower(lead.notes, typed);
    }
  }

  /** The phone is compared as typed: "ABC" in a phone is not found by "ABC". */
  lemma PhoneNotCaseFolded()
    ensures !MatchesSearch(Lead(1, "", "ABC", "", "", New, "", 0), Lower("ABC"))
  {
  }

  // ---------------------------------------------------------------------
  // Counts

  /** The counts shown in the summary, one per known status. */
  datatype StatusCounts = StatusCounts(
    newCount: nat,
    processingCount: nat,
    negativeCount: nat,
    positiveCount: nat,
    closedCount: nat)

  function Total(c: StatusCounts): nat
  {
    c.newCount + c.processingCount + c.negativeCount + c.positiveCount + c.closedCount
  }

  /** The number of leads whose status is exactly `status`. */
  function CountStatus(leads: seq<Lead>, status: string): nat
  {
    |Filter(leads, HasStatus(status))|
  }

  function Stats(leads: seq<Lead>): StatusCounts
  {
    StatusCounts(
      CountStatus(leads, New),
      CountStatus(leads, Processing),
      CountStatus(leads, Negative),
      CountStatus(leads, Positive),
      CountStatus(leads, Closed))
  }

  /** The statuses of the leads, in order. */
  function StatusesOf(leads: seq<Lead>): (r: seq<string>)
    ensures |r| == |leads|
    ensures forall i :: 0 <= i < |leads| ==> r[i] == leads[i].status
  {
    if |leads| == 0 then [] else [leads[0].status] + StatusesOf(leads[1..])
  }

  /** A count is the multiplicity of its status among the leads' statuses. */
  lemma {:induction false} CountIsMultiplicity(leads: seq<Lead>, status: string)
    ensures CountStatus(leads, status) == multiset(StatusesOf(leads))[status]
    decreases |leads|
  {
    if |leads| > 0 {
      CountIsMultiplicity(leads[1..], status);
      assert leads == [leads[0]] + leads[1..];
      FilterCons(leads[0], leads[1..], HasStatus(status));
      assert StatusesOf(leads) == [leads[0].status] + StatusesOf(leads[1..]);
    }
  }

  /**
   * The five counts never exceed the number of leads, and reach it exactly
   * when every lead has one of the five known statuses.
   */
  lemma {:induction false} StatsTotal(leads: seq<Lead>)
    ensures Total(Stats(leads)) <= |leads|
    ensures Total(Stats(leads)) == |leads| <==> forall l :: l in leads ==> l.status in KnownStatuses
    decreases |leads|
  {
    if |leads| > 0 {
      var h, t := leads[0], leads[1..];
      assert leads == [h] + t;
      StatsTotal(t);
      FilterCons(h, t, HasStatus(New));
      FilterCons(h, t, HasStatus(Processing));
      FilterCons(h, t, HasStatus(Negative));
      FilterCons(h, t, HasStatus(Positive));
      FilterCons(h, t, HasStatus(Closed));
      assert Total(Stats(leads)) == Total(Stats(t)) + (if h.status in KnownStatuses then 1 else 0);
      if forall l :: l in t ==> l.status in KnownStatuses {
        if h.status in KnownStatuses {
          forall l | l in leads ensures l.status in KnownStatuses {
            if l != h { assert l in t; }
          }
        }
      }
    }
  }

  /** Adding a lead with status "new" raises the "new" count by one and no other. */
  lemma StatsAfterPrepend(lead: Lead, leads: seq<Lead>)
    requires lead.status == New
    ensures var before, after := Stats(leads), Stats([lead] + leads);
      after == before.(newCount := before.newCount + 1)
  {
  }

  // ---------------------------------------------------------------------
  // Add

  /** The lead a submitted form creates: status "new", id from the clock. */
  function NewLead(form: LeadForm, createdAt: int, id: int): Lead
  {
    Lead(id, form.name, form.phone, form.email, form.marketplace, New, form.notes, createdAt)
  }

  /** Adding puts the new lead in front (`unshift`). */
  function AddLead(leads: seq<Lead>, form: LeadForm, createdAt: int, id: int): (r: seq<Lead>)
    ensures |r| == |leads| + 1
    ensures r[0].id == id && r[0].status == New && r[0].createdAt == createdAt
    ensures && r[0].name == form.name && r[0].phone == form.phone && r[0].email == form.email
            && r[0].marketplace == form.marketplace && r[0].notes == form.notes
    ensures r[1..] == leads
  {
    [NewLead(form, createdAt, id)] + leads
  }

  /** No two leads share an id. */
  ghost predicate DistinctIds(leads: seq<Lead>)
  {
    forall i, j :: 0 <= i < j < |leads| ==> leads[i].id != leads[j].id
  }

  /**
   * Ids stay distinct across an add only when the clock reading is an id not
   * yet in use; nothing in the program checks this.
   */
  lemma AddKeepsDistinctIds(leads: seq<Lead>, form: LeadForm, createdAt: int, id: int)
    requires DistinctIds(leads)
    ensures DistinctIds(AddLead(leads, form, createdAt, id)) <==> forall l :: l in leads ==> l.id != id
  {
  }

  // ---------------------------------------------------------------------
  // Edit

  /**
   * `{ ...old, ...leadData }`: the form's fields, status "new" and the
   * new creation instant over the old record; only the id survives.
   */
  function Merge(prior: Lead, form: LeadForm, createdAt: int): (r: Lead)
    ensures r.id == prior.id && r.status == New && r.createdAt == createdAt
    ensures r == NewLead(form, createdAt, prior.id)
  {
    prior.(name := form.name, phone := form.phone, email := form.email,
         marketplace := form.marketplace, notes := form.notes,
         status := New, createdAt := createdAt)
  }

  /** Editing overwrites the first lead with the id; an absent id changes nothing. */
  function EditLead(leads: seq<Lead>, id: int, form: LeadForm, createdAt: int): seq<Lead>
  {
    var index := FindIndex(leads, HasId(id));
    if index != -1 then leads[index := Merge(leads[index], form, createdAt)] else leads
  }

  /** The position of the first lead with the given id. */
  predicate FirstWithId(leads: seq<Lead>, id: int, i: int)
    requires 0 <= i < |leads|
  {
    leads[i].id == id && forall j :: 0 <= j < i ==> leads[j].id != id
  }

  /**
   * An edit replaces exactly the first lead with the id by the merged record
   * and leaves every other lead, the length and every id as they were.
   */
  lemma EditSpec(leads: seq<Lead>, id: int, form: LeadForm, createdAt: int)
    ensures var r := EditLead(leads, id, form, createdAt);
      && |r| == |leads|
      && (forall i :: 0 <= i < |leads| ==>
            r[i] == if FirstWithId(leads, id, i) then Merge(leads[i], form, createdAt) else leads[i])
      && (forall i :: 0 <= i < |leads| ==> r[i].id == leads[i].id)
      && ((forall l :: l in leads ==> l.id != id) ==> r == leads)
  {
  }

  // ---------------------------------------------------------------------
  // Status change

  /** Sets the status of the first lead with the id; an absent id changes nothing. */
  function SetStatus(leads: seq<Lead>, id: int, status: string): seq<Lead>
  {
    var index := FindIndex(leads, HasId(id));
    if index != -1 then leads[index := leads[index].(status := status)] else leads
  }

  /**
   * A status change touches only the status of the first lead with the id:
   * every other field, every other lead and the length stay as they were.
   */
  lemma SetStatusSpec(leads: seq<Lead>, id: int, status: string)
    ensures var r := SetStatus(leads, id, status);
      && |r| == |leads|
      && (forall i :: 0 <= i < |leads| ==>
            r[i] == if FirstWithId(leads, id, i) then leads[i].(status := status) else leads[i])
      && (forall i :: 0 <= i < |leads| ==> r[i].id == leads[i].id)
      && ((forall l :: l in leads ==> l.id != id) ==> r == leads)
  {
  }

  // ---------------------------------------------------------------------
  // Delete

  /** `leads.filter(l => l.id !== id)`. */
  function WithoutId(leads: seq<Lead>, id: int): seq<Lead>
  {
    Filter(leads, LacksId(id))
  }

  /**
   * Deleting removes every lead with the id and keeps every other lead, with
   * all its occurrences, in the stored order.
   */
  lemma DeleteSpec(leads: seq<Lead>, id: int)
    ensures IsSubsequence(WithoutId(leads, id), leads)
    ensures forall x :: multiset(WithoutId(leads, id))[x] == if x.id == id then 0 else multiset(leads)[x]
    ensures forall l :: l in WithoutId(leads, id) ==> l.id != id
  {
    FilterIsSubsequence(leads, LacksId(id));
    forall x
      ensures multiset(WithoutId(leads, id))[x] == if x.id == id then 0 else multiset(leads)[x]
    {
      FilterMultiplicity(leads, LacksId(id), x);
    }
  }

  /** Deleting the same id twice is deleting it once. */
  lemma DeleteIdempotent(leads: seq<Lead>, id: int)
    ensures WithoutId(WithoutId(leads, id), id) == WithoutId(leads, id)
  {
    FilterIdempotent(leads, LacksId(id));
  }

  /** Deleting an id no lead has leaves the list as it was. */
  lemma DeleteAbsent(leads: seq<Lead>, id: int)
    requires forall l :: l in leads ==> l.id != id
    ensures WithoutId(leads, id) == leads
  {
    forall i | 0 <= i < |leads| ensures LacksId(id)(leads[i]) {
      assert leads[i] in leads;
    }
    FilterKeepsAll(leads, LacksId(id));
  }

  /** Deleting keeps the ids of the remaining leads distinct. */
  lemma {:induction false} DeleteKeepsDistinctIds(leads: seq<Lead>, id: int)
    requires DistinctIds(leads)
    ensures DistinctIds(WithoutId(leads, id))
    decreases |leads|
  {
    if |leads| > 0 {
      var h, t := leads[0], leads[1..];
      assert leads == [h] + t;
      DeleteKeepsDistinctIds(t, id);
      FilterCons(h, t, LacksId(id));
      var rest := WithoutId(t, id);
      forall l | l in rest ensures l.id != h.id {
        var k :| 0 <= k < |t| && t[k] == l;
        assert leads[k + 1] == l;
      }
      if LacksId(id)(h) {
        var r := WithoutId(leads, id);
        forall i, j | 0 <= i < j < |r| ensures r[i].id != r[j].id {
          assert r[j] == rest[j - 1];
          assert r[j] in rest;
          if i > 0 { assert r[i] == rest[i - 1]; }
        }
      }
    }
  }

  // ---------------------------------------------------------------------
  // First-run seeding

  /** The three example leads, created now, a day ago and two days ago. */
  function SampleLeads(now: int): (r: seq<Lead>)
    ensures |r| == 3
    ensures forall i :: 0 <= i < 3 ==> r[i].id == i + 1 && r[i].createdAt == now - i * DayMillis
  {
    [ Lead(1, "Jan Kowalski", "+48 123 456 789", "jan.kowalski@email.com", "Allegro",
           New, "Interesuje się produktem X", now),
      Lead(2, "Anna Nowak", "+48 987 654 321", "anna.nowak@email.com", "OLX",
           Processing, "Wysłałem ofertę, czekam na odpowiedź", now - DayMillis),
      Lead(3, "Piotr Wiśniewski", "+48 555 123 456", "piotr.wisniewski@email.com", "Facebook Marketplace",
           Positive, "Klient bardzo zainteresowany", now - 2 * DayMillis) ]
  }

  /** The seeded list has distinct ids and one lead each in new, processing and positive. */
  lemma SampleLeadsSpec(now: int)
    ensures DistinctIds(SampleLeads(now))
    ensures Stats(SampleLeads(now)) == StatusCounts(1, 1, 0, 1, 0)
  {
    var s := SampleLeads(now);
    assert s == [s[0]] + ([s[1]] + ([s[2]] + []));
    FilterCons(s[2], [], HasStatus(New));
    FilterCons(s[2], [], HasStatus(Processing));
    FilterCons(s[2], [], HasStatus(Negative));
    FilterCons(s[2], [], HasStatus(Positive));
    FilterCons(s[2], [], HasStatus(Closed));
    StatsAfterPrepend(s[0], [s[1], s[2]]);
    FilterCons(s[1], [s[2]], HasStatus(New));
    FilterCons(s[1], [s[2]], HasStatus(Processing));
    FilterCons(s[1], [s[2]], HasStatus(Negative));
    FilterCons(s[1], [s[2]], HasStatus(Positive));
    FilterCons(s[1], [s[2]], HasStatus(Closed));
  }

  /** Seeding fills an empty list and leaves any other list alone. */
  function Seeded(leads: seq<Lead>, now: int): (r: seq<Lead>)
    ensures |leads| == 0 ==> r == SampleLeads(now)
    ensures |leads| != 0 ==> r == leads
  {
    if |leads| == 0 then SampleLeads(now) else leads
  }

  // ---------------------------------------------------------------------
  // Persistence

  /** The `leads` entry of the browser's local storage. */
  datatype StoredBlob = Absent | Unparseable | Saved(leads: seq<Lead>)

  /**
   * `JSON.parse(localStorage.getItem('leads')) || []`: a missing entry reads
   * as the empty list, a saved list reads back as itself, and a corrupt
   * entry makes the parse throw (None).
   */
  function LoadLeads(blob: StoredBlob): (r: Option<seq<Lead>>)
    ensures r.None? <==> blob.Unparseable?
    ensures blob.Absent? ==> r == Some([])
    ensures forall leads :: blob == Saved(leads) ==> r == Some(leads)
  {
    match blob
    case Absent => Some([])
    case Unparseable => None
    case Saved(leads) => Some(leads)
  }
}
