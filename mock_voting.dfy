/** The self-contained election demo of frontend/src/components/VotingPage.jsx:
    the in-memory store of its `App` component (id counters, organization
    list, candidate lists keyed by organization id, the set of organizations
    voted in, the view state machine), the selection and vote guards of its
    `VotingPage` and `OrganizationList` components, and the form state of
    its inline `AdminDashboard`. Each asynchronous handler is one atomic step. */
module MockVoting {
  import opened JsValues
  import opened JsStrings

  /** An organization as the store keeps it. */
  datatype Organization = Organization(id: int, name: string)

  /** A candidate; `placeholderVotes` is a display figure, never a tally. */
  datatype Candidate = Candidate(id: int, name: string, placeholderVotes: int)

  /** An organization as the views receive it, with its derived candidate count. */
  datatype CountedOrganization = CountedOrganization(id: int, name: string, candidateCount: nat)

  /** The value of the `view` state. */
  datatype View = ListView | VotingView | AdminView

  /** What the `switch (view)` renders. */
  datatype Screen =
    | OrganizationListScreen(organizations: seq<CountedOrganization>)
    | VotingScreen(organization: CountedOrganization, candidates: seq<Candidate>)
    | AdminScreen(organizations: seq<CountedOrganization>)

  /** The two forms of the inline admin console. */
  datatype Form = OrganizationForm | CandidateForm

  /** `byOrg[orgId] || []`: the candidate list of an organization, empty when absent. */
  function CandidatesOf(byOrg: map<int, seq<Candidate>>, orgId: int): seq<Candidate> {
    if orgId in byOrg then byOrg[orgId] else []
  }

  /** `byOrg[orgId]?.length || 0`. */
  function CandidateCount(byOrg: map<int, seq<Candidate>>, orgId: int): nat {
    if orgId in byOrg then |byOrg[orgId]| else 0
  }

  /** `{...org, candidateCount}` for one organization. */
  function WithCount(org: Organization, byOrg: map<int, seq<Candidate>>): CountedOrganization {
    CountedOrganization(org.id, org.name, CandidateCount(byOrg, org.id))
  }

  /** `organizationsWithCount`: the organization list with each entry's count. */
  function WithCounts(orgs: seq<Organization>, byOrg: map<int, seq<Candidate>>): (r: seq<CountedOrganization>)
    ensures |r| == |orgs|
  {
    if orgs == [] then [] else [WithCount(orgs[0], byOrg)] + WithCounts(orgs[1..], byOrg)
  }

  /** The derived list keeps the order of `orgs`, and entry i carries the id
      and name of organization i and the length of its candidate list. */
  lemma {:induction false} WithCountsAt(orgs: seq<Organization>, byOrg: map<int, seq<Candidate>>, i: int)
    requires 0 <= i < |orgs|
    ensures WithCounts(orgs, byOrg)[i] ==
      CountedOrganization(orgs[i].id, orgs[i].name, |CandidatesOf(byOrg, orgs[i].id)|)
  {
    if i > 0 {
      WithCountsAt(orgs[1..], byOrg, i - 1);
    }
  }

  /** Appending an organization appends its counted entry and changes no other. */
  lemma {:induction false} WithCountsAppend(orgs: seq<Organization>, org: Organization, byOrg: map<int, seq<Candidate>>)
    ensures WithCounts(orgs + [org], byOrg) == WithCounts(orgs, byOrg) + [WithCount(org, byOrg)]
  {
    if orgs != [] {
      assert (orgs + [org])[1..] == orgs[1..] + [org];
      WithCountsAppend(orgs[1..], org, byOrg);
    }
  }

  /** Organization ids ascend along the list. */
  predicate IdsAscending(orgs: seq<Organization>) {
    forall i :: 0 < i < |orgs| ==> orgs[i - 1].id < orgs[i].id
  }

  /** Ascending ids are pairwise ordered by position, hence unique. */
  lemma {:induction false} AscendingIdsAreOrdered(orgs: seq<Organization>, i: int, j: int)
    requires IdsAscending(orgs)
    requires 0 <= i < j < |orgs|
    ensures orgs[i].id < orgs[j].id
    decreases j - i
  {
    if i + 1 < j {
      AscendingIdsAreOrdered(orgs, i + 1, j);
    }
  }

  /** No two candidates, in the same list or in two lists, share an id. */
  ghost predicate CandidateIdsDistinct(byOrg: map<int, seq<Candidate>>) {
    forall k1, k2, i, j ::
      k1 in byOrg && k2 in byOrg && 0 <= i < |byOrg[k1]| && 0 <= j < |byOrg[k2]| && (k1 != k2 || i != j)
      ==> byOrg[k1][i].id != byOrg[k2][j].id
  }

  /** Every stored candidate id is below `bound`. */
  ghost predicate CandidateIdsBelow(byOrg: map<int, seq<Candidate>>, bound: int) {
    forall k, i :: k in byOrg && 0 <= i < |byOrg[k]| ==> byOrg[k][i].id < bound
  }

  /** Appending a candidate whose id is the counter keeps ids distinct, and
      the incremented counter is again above every id. */
  lemma AppendCandidateKeepsIdsDistinct(byOrg: map<int, seq<Candidate>>, orgId: int, c: Candidate, bound: int)
    requires CandidateIdsDistinct(byOrg) && CandidateIdsBelow(byOrg, bound)
    requires c.id == bound
    ensures var m := byOrg[orgId := CandidatesOf(byOrg, orgId) + [c]];
      CandidateIdsDistinct(m) && CandidateIdsBelow(m, bound + 1)
  {
  }

  /** Storing an empty list under an id keeps candidate ids distinct and
      below the counter. */
  lemma ResetListKeepsIdsDistinct(byOrg: map<int, seq<Candidate>>, orgId: int, bound: int)
    requires CandidateIdsDistinct(byOrg) && CandidateIdsBelow(byOrg, bound)
    ensures CandidateIdsDistinct(byOrg[orgId := []]) && CandidateIdsBelow(byOrg[orgId := []], bound)
  {
  }

  /** A newly added organization is listed last, with a count of 0, whether
      or not a list was stored under its id before. */
  lemma NewOrganizationHasNoCandidates(orgs: seq<Organization>, byOrg: map<int, seq<Candidate>>, id: int, name: string)
    ensures var r := WithCounts(orgs + [Organization(id, name)], byOrg[id := []]);
      |r| == |orgs| + 1 && r[|orgs|] == CountedOrganization(id, name, 0)
  {
    WithCountsAppend(orgs, Organization(id, name), byOrg[id := []]);
  }

  /** Storing an empty list under an id no listed organization has leaves
      every derived count unchanged. */
  lemma {:induction false} ResetUnlistedKeepsCounts(orgs: seq<Organization>, byOrg: map<int, seq<Candidate>>, id: int)
    requires forall i :: 0 <= i < |orgs| ==> orgs[i].id != id
    ensures WithCounts(orgs, byOrg[id := []]) == WithCounts(orgs, byOrg)
  {
    if orgs != [] {
      ResetUnlistedKeepsCounts(orgs[1..], byOrg, id);
    }
  }

  /** Adding a candidate to `orgId` raises the derived count of exactly the
      organizations with that id by one; ids, names, order and all other
      counts stay. */
  lemma AddCandidateCounts(orgs: seq<Organization>, byOrg: map<int, seq<Candidate>>, orgId: int, c: Candidate, i: int)
    requires 0 <= i < |orgs|
    ensures var before := WithCounts(orgs, byOrg);
      var after := WithCounts(orgs, byOrg[orgId := CandidatesOf(byOrg, orgId) + [c]]);
      && |after| == |before|
      && after[i].id == before[i].id && after[i].name == before[i].name
      && after[i].candidateCount == before[i].candidateCount + (if orgs[i].id == orgId then 1 else 0)
  {
    WithCountsAt(orgs, byOrg, i);
    WithCountsAt(orgs, byOrg[orgId := CandidatesOf(byOrg, orgId) + [c]], i);
  }

  /** `OrganizationList`'s `canVote`: a card only selects its organization
      when the organization has candidates; otherwise the click is ignored. */
  function OrganizationClick(org: CountedOrganization): (r: Option<CountedOrganization>)
    ensures r.Some? <==> org.candidateCount > 0
    ensures r.Some? ==> r.value == org
  {
    if org.candidateCount > 0 then Some(org) else None
  }

  /** On the store's derived list, card i is selectable exactly when its
      organization's candidate list is non-empty. */
  lemma OrganizationClickIff(orgs: seq<Organization>, byOrg: map<int, seq<Candidate>>, i: int)
    requires 0 <= i < |orgs|
    ensures OrganizationClick(WithCounts(orgs, byOrg)[i]).Some? <==> CandidatesOf(byOrg, orgs[i].id) != []
  {
    WithCountsAt(orgs, byOrg, i);
  }

  /** `VotingPage`'s candidate card click: ignored once the organization is
      voted, otherwise it selects the candidate. */
  function CandidateClick(selected: Option<Candidate>, voted: bool, c: Candidate): (r: Option<Candidate>)
    ensures voted ==> r == selected
    ensures !voted ==> r == Some(c)
  {
    if voted then selected else Some(c)
  }

  /** `VotingPage.handleVote`: the `(organizationId, candidateId)` call it
      makes to `onVote`, or None when no candidate is selected or the
      organization is already voted. */
  function VoteCall(selected: Option<Candidate>, voted: bool, orgId: int): (r: Option<(int, int)>)
    ensures r.Some? <==> selected.Some? && !voted
    ensures r.Some? ==> r.value == (orgId, selected.value.id)
  {
    if selected.None? || voted then None else Some((orgId, selected.value.id))
  }

  /** The store of the mock `App` component. */
  class App {
    var nextOrgId: int
    var nextCandidateId: int
    var organizations: seq<Organization>
    var candidatesByOrg: map<int, seq<Candidate>>
    var votedOrgIds: set<int>
    var view: View
    var selectedOrg: Option<CountedOrganization>

    /** Organization ids ascend and stay below the counter; candidate ids are
        unique and stay below theirs; the voting view has an organization. */
    ghost predicate Valid()
      reads this
    {
      && IdsAscending(organizations)
      && (forall i :: 0 <= i < |organizations| ==> organizations[i].id < nextOrgId)
      && CandidateIdsDistinct(candidatesByOrg)
      && CandidateIdsBelow(candidatesByOrg, nextCandidateId)
      && (view == VotingView ==> selectedOrg.Some?)
    }

    /** The seeded state: organizations 1..3, candidates 101, 201, 202, and
        counters at 4 and 300, above every seeded id. */
    constructor ()
      ensures Valid()
      ensures nextOrgId == 4 && nextCandidateId == 300
      ensures organizations == [
        Organization(1, "Student Council Election"),
        Organization(2, "Department Head Vote"),
        Organization(3, "Quarterly Research Budget")]
      ensures candidatesByOrg == map[
        1 := [Candidate(101, "A.I. Alpha", 50)],
        2 := [Candidate(201, "Dr. Smith", 120), Candidate(202, "Dr. Chang", 90)],
        3 := []]
      ensures votedOrgIds == {} && view == ListView && selectedOrg == None
    {
      nextOrgId := 4;
      nextCandidateId := 300;
      organizations := [
        Organization(1, "Student Council Election"),
        Organization(2, "Department Head Vote"),
        Organization(3, "Quarterly Research Budget")];
      candidatesByOrg := map[
        1 := [Candidate(101, "A.I. Alpha", 50)],
        2 := [Candidate(201, "Dr. Smith", 120), Candidate(202, "Dr. Chang", 90)],
        3 := []];
      votedOrgIds := {};
      view := ListView;
      selectedOrg := None;
    }

    /** `organizationsWithCount`. */
    function OrganizationsWithCount(): (r: seq<CountedOrganization>)
      reads this
      ensures |r| == |organizations|
      ensures forall i :: 0 <= i < |r| ==> r[i].id == organizations[i].id && r[i].name == organizations[i].name
    {
      var r := WithCounts(organizations, candidatesByOrg);
      assert forall i :: 0 <= i < |r| ==> r[i].id == organizations[i].id && r[i].name == organizations[i].name by {
        forall i | 0 <= i < |r| ensures r[i].id == organizations[i].id && r[i].name == organizations[i].name {
          WithCountsAt(organizations, candidatesByOrg, i);
        }
      }
      r
    }

    /** `hasVotedForOrg`: true exactly for the organizations recorded in the
        voted set, so false for every organization of a fresh store. */
    function HasVotedForOrg(orgId: int): (r: bool)
      reads this
      ensures r <==> orgId in votedOrgIds
    {
      orgId in votedOrgIds
    }

    /** `handleAddOrganization`: appends `{id: nextOrgId, name}`, stores an
        empty candidate list under the new id, and advances the counter by one. */
    method AddOrganization(name: string)
      requires Valid()
      modifies this`organizations, this`candidatesByOrg, this`nextOrgId
      ensures Valid()
      ensures organizations == old(organizations) + [Organization(old(nextOrgId), name)]
      ensures candidatesByOrg == old(candidatesByOrg)[old(nextOrgId) := []]
      ensures nextOrgId == old(nextOrgId) + 1
      ensures OrganizationsWithCount() ==
        old(OrganizationsWithCount()) + [CountedOrganization(old(nextOrgId), name, 0)]
    {
      var id := nextOrgId;
      forall i | 0 <= i < |organizations| ensures organizations[i].id != id { }
      ResetUnlistedKeepsCounts(organizations, candidatesByOrg, id);
      WithCountsAppend(organizations, Organization(id, name), candidatesByOrg[id := []]);
      ResetListKeepsIdsDistinct(candidatesByOrg, id, nextCandidateId);
      organizations := organizations + [Organization(id, name)];
      candidatesByOrg := candidatesByOrg[id := []];
      nextOrgId := nextOrgId + 1;
    }

    /** `handleAddCandidate`: appends `{id: nextCandidateId, name,
        placeholderVotes}` to the list of `orgId` (creating the list when
        missing, without checking that the organization exists) and advances
        the counter by one. `placeholderVotes` stands for the random
        `Math.floor(Math.random() * 500) + 100`. */
    method AddCandidate(name: string, orgId: int, placeholderVotes: int)
      requires Valid()
      requires 100 <= placeholderVotes < 600
      modifies this`candidatesByOrg, this`nextCandidateId
      ensures Valid()
      ensures candidatesByOrg ==
        old(candidatesByOrg)[orgId := CandidatesOf(old(candidatesByOrg), orgId) + [Candidate(old(nextCandidateId), name, placeholderVotes)]]
      ensures nextCandidateId == old(nextCandidateId) + 1
      ensures forall k :: k != orgId ==> CandidatesOf(candidatesByOrg, k) == CandidatesOf(old(candidatesByOrg), k)
    {
      var c := Candidate(nextCandidateId, name, placeholderVotes);
      AppendCandidateKeepsIdsDistinct(candidatesByOrg, orgId, c, nextCandidateId);
      candidatesByOrg := candidatesByOrg[orgId := CandidatesOf(candidatesByOrg, orgId) + [c]];
      nextCandidateId := nextCandidateId + 1;
    }

    /** `handleVote`: records the organization as voted. Nothing is counted:
        the candidate id is only logged. */
    method Vote(orgId: int, candidateId: int)
      requires Valid()
      modifies this`votedOrgIds
      ensures Valid()
      ensures votedOrgIds == old(votedOrgIds) + {orgId}
      ensures HasVotedForOrg(orgId)
      ensures forall o :: o != orgId ==> HasVotedForOrg(o) == old(HasVotedForOrg(o))
      ensures old(HasVotedForOrg(orgId)) ==> votedOrgIds == old(votedOrgIds)
    {
      votedOrgIds := votedOrgIds + {orgId};
    }

    /** `handleSelectOrg`. */
    method SelectOrg(org: CountedOrganization)
      requires Valid()
      modifies this`selectedOrg, this`view
      ensures Valid()
      ensures selectedOrg == Some(org) && view == VotingView
    {
      selectedOrg := Some(org);
      view := VotingView;
    }

    /** `handleGoToAdmin`. */
    method GoToAdmin()
      requires Valid()
      modifies this`view
      ensures Valid()
      ensures view == AdminView
    {
      view := AdminView;
    }

    /** `handleBackToMain`. */
    method BackToMain()
      requires Valid()
      modifies this`view, this`selectedOrg
      ensures Valid()
      ensures view == ListView && selectedOrg == None
    {
      view := ListView;
      selectedOrg := None;
    }

    /** The render switch: the admin console for `admin`, the voting page of
        the selected organization with its candidates for `voting` (the list
        when none is selected), and the list otherwise. */
    function CurrentScreen(): (r: Screen)
      reads this
      ensures r.AdminScreen? <==> view == AdminView
      ensures r.VotingScreen? <==> view == VotingView && selectedOrg.Some?
      ensures r.VotingScreen? ==>
        && r.organization == selectedOrg.value
        && r.candidates == CandidatesOf(candidatesByOrg, selectedOrg.value.id)
      ensures Valid() && view == VotingView ==> r.VotingScreen?
    {
      match view
      case AdminView => AdminScreen(OrganizationsWithCount())
      case VotingView =>
        if selectedOrg.Some? then VotingScreen(selectedOrg.value, CandidatesOf(candidatesByOrg, selectedOrg.value.id))
        else OrganizationListScreen(OrganizationsWithCount())
      case ListView => OrganizationListScreen(OrganizationsWithCount())
    }
  }

  /** The form state of the inline admin console. `isProcessing` is only
      true inside a submit step, so it is not kept. */
  class AdminDashboard {
    var activeForm: Form
    var selectedOrgId: Option<int>
    var orgName: string
    var candidateName: string

    constructor ()
      ensures activeForm == OrganizationForm && selectedOrgId == None
      ensures orgName == "" && candidateName == ""
    {
      activeForm := OrganizationForm;
      selectedOrgId := None;
      orgName := "";
      candidateName := "";
    }

    /** The default-selection effect: with organizations and no selection,
        select the first one and show the candidate form; with none, show the
        organization form and clear the selection; otherwise keep both. */
    method SyncWithOrganizations(orgs: seq<CountedOrganization>)
      modifies this`activeForm, this`selectedOrgId
      ensures |orgs| > 0 && old(selectedOrgId) == None ==>
        selectedOrgId == Some(orgs[0].id) && activeForm == CandidateForm
      ensures |orgs| == 0 ==> selectedOrgId == None && activeForm == OrganizationForm
      ensures |orgs| > 0 && old(selectedOrgId) != None ==>
        selectedOrgId == old(selectedOrgId) && activeForm == old(activeForm)
    {
      if |orgs| > 0 && selectedOrgId == None {
        selectedOrgId := Some(orgs[0].id);
        activeForm := CandidateForm;
      } else if |orgs| == 0 {
        activeForm := OrganizationForm;
        selectedOrgId := None;
      }
    }

    /** The organization toggle button. */
    method ShowOrganizationForm()
      modifies this`activeForm
      ensures activeForm == OrganizationForm
    {
      activeForm := OrganizationForm;
    }

    /** The candidate toggle button, disabled while there is no organization. */
    method ShowCandidateForm(orgCount: nat)
      modifies this`activeForm
      ensures activeForm == if orgCount == 0 then old(activeForm) else CandidateForm
    {
      if orgCount != 0 {
        activeForm := CandidateForm;
      }
    }

    /** Typing into the organization name field. */
    method EnterOrgName(text: string)
      modifies this`orgName
      ensures orgName == text
    {
      orgName := text;
    }

    /** Typing into the candidate name field. */
    method EnterCandidateName(text: string)
      modifies this`candidateName
      ensures candidateName == text
    {
      candidateName := text;
    }

    /** Choosing an organization in the select. */
    method ChooseOrganization(orgId: int)
      modifies this`selectedOrgId
      ensures selectedOrgId == Some(orgId)
    {
      selectedOrgId := Some(orgId);
    }

    /** `handleAddOrganizationSubmit`: a blank name makes no call and changes
        nothing; otherwise `onAddOrganization(orgName)` is called and, when it
        resolves, the name is cleared and the candidate form shown. */
    method SubmitOrganization(callbackResolves: bool) returns (call: Option<string>)
      modifies this`orgName, this`activeForm
      ensures call.Some? <==> !IsBlank(old(orgName))
      ensures call.Some? ==> call.value == old(orgName)
      ensures if call.Some? && callbackResolves then orgName == "" && activeForm == CandidateForm
              else orgName == old(orgName) && activeForm == old(activeForm)
    {
      TrimEmptyIffBlank(orgName);
      if Trim(orgName) == [] {
        return None;
      }
      call := Some(orgName);
      if callbackResolves {
        orgName := "";
        activeForm := CandidateForm;
      }
    }

    /** `handleAddCandidateSubmit`: a blank name or a falsy selection makes no
        call and changes nothing; otherwise `onAddCandidate(candidateName,
        selectedOrgId)` is called and, when it resolves, the name is cleared. */
    method SubmitCandidate(callbackResolves: bool) returns (call: Option<(string, int)>)
      modifies this`candidateName
      ensures call.Some? <==> !IsBlank(old(candidateName)) && TruthyNumber(selectedOrgId)
      ensures call.Some? ==> call.value == (old(candidateName), selectedOrgId.value)
      ensures candidateName == if call.Some? && callbackResolves then "" else old(candidateName)
    {
      TrimEmptyIffBlank(candidateName);
      if Trim(candidateName) == [] || !TruthyNumber(selectedOrgId) {
        return None;
      }
      call := Some((candidateName, selectedOrgId.value));
      if callbackResolves {
        candidateName := "";
      }
    }
  }

  /** The inline console's organization form wired to the store's
      `handleAddOrganization`, which always resolves. A blank name leaves
      form and store as they were; otherwise the organization is added under
      the counter, the counter advances, the name is cleared and the
      candidate form shown. The voted set, view, selection and candidate
      counter are outside the frame. */
  method SubmitOrganizationForm(form: AdminDashboard, app: App)
    requires app.Valid()
    modifies form`orgName, form`activeForm, app`organizations, app`candidatesByOrg, app`nextOrgId
    ensures app.Valid()
    ensures IsBlank(old(form.orgName)) ==>
      && app.organizations == old(app.organizations)
      && app.candidatesByOrg == old(app.candidatesByOrg)
      && app.nextOrgId == old(app.nextOrgId)
      && form.orgName == old(form.orgName)
      && form.activeForm == old(form.activeForm)
    ensures !IsBlank(old(form.orgName)) ==>
      && app.organizations == old(app.organizations) + [Organization(old(app.nextOrgId), old(form.orgName))]
      && app.candidatesByOrg == old(app.candidatesByOrg)[old(app.nextOrgId) := []]
      && app.nextOrgId == old(app.nextOrgId) + 1
      && form.orgName == ""
      && form.activeForm == CandidateForm
  {
    var call := form.SubmitOrganization(true);
    if call.Some? {
      app.AddOrganization(call.value);
    }
  }

  /** The inline console's candidate form wired to the store's
      `handleAddCandidate`. A blank name or a falsy selection leaves form and
      store as they were; otherwise the candidate is appended under the
      counter, the counter advances and the name is cleared, the selection
      kept. Organizations, the voted set, view and selection are outside the
      frame. */
  method SubmitCandidateForm(form: AdminDashboard, app: App, placeholderVotes: int)
    requires app.Valid()
    requires 100 <= placeholderVotes < 600
    modifies form`candidateName, app`candidatesByOrg, app`nextCandidateId
    ensures app.Valid()
    ensures var ok := !IsBlank(old(form.candidateName)) && TruthyNumber(form.selectedOrgId);
      && (ok ==>
            && app.candidatesByOrg == old(app.candidatesByOrg)[form.selectedOrgId.value :=
                 CandidatesOf(old(app.candidatesByOrg), form.selectedOrgId.value)
                 + [Candidate(old(app.nextCandidateId), old(form.candidateName), placeholderVotes)]]
            && app.nextCandidateId == old(app.nextCandidateId) + 1
            && form.candidateName == "")
      && (!ok ==>
            && app.candidatesByOrg == old(app.candidatesByOrg)
            && app.nextCandidateId == old(app.nextCandidateId)
            && form.candidateName == old(form.candidateName))
    ensures form.selectedOrgId == old(form.selectedOrgId)
  {
    var call := form.SubmitCandidate(true);
    if call.Some? {
      app.AddCandidate(call.value.0, call.value.1, placeholderVotes);
    }
  }

  /** A click on an organization card of the list wired to `handleSelectOrg`:
      only the view and the selection can change, and a card with no
      candidates changes nothing. */
  method ClickOrganization(app: App, org: CountedOrganization)
    requires app.Valid()
    modifies app`view, app`selectedOrg
    ensures app.Valid()
    ensures org.candidateCount > 0 ==> app.view == VotingView && app.selectedOrg == Some(org)
    ensures org.candidateCount == 0 ==> app.view == old(app.view) && app.selectedOrg == old(app.selectedOrg)
  {
    var choice := OrganizationClick(org);
    if choice.Some? {
      app.SelectOrg(choice.value);
    }
  }

  /** The voting page's vote button wired to the store: `hasVoted` is
      `hasVotedForOrg` and `onVote` is `handleVote`. Only the voted set can
      change; without a selection, or once the organization is voted, it is
      left as it was. */
  method CastVoteFromPage(app: App, org: CountedOrganization, selected: Option<Candidate>)
    requires app.Valid()
    modifies app`votedOrgIds
    ensures app.Valid()
    ensures app.votedOrgIds == if selected.Some? then old(app.votedOrgIds) + {org.id} else old(app.votedOrgIds)
    ensures app.HasVotedForOrg(org.id) <==> selected.Some? || old(app.HasVotedForOrg(org.id))
    ensures app.candidatesByOrg == old(app.candidatesByOrg) && app.organizations == old(app.organizations)
  {
    var call := VoteCall(selected, app.HasVotedForOrg(org.id), org.id);
    if call.Some? {
      app.Vote(call.value.0, call.value.1);
    }
  }
}
