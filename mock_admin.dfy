/** frontend/src/components/AdminDashboard.jsx: the admin console's form
    state and submit guards, and the `AppWrapper` demo store that feeds it,
    where organization ids are positions and candidate additions only bump a
    stored count. Each asynchronous handler is one atomic step. */
module MockAdmin {
  import opened JsValues
  import opened JsStrings

  /** An organization of the `AppWrapper` store, with a stored candidate count. */
  datatype Organization = Organization(id: int, name: string, candidateCount: int)

  /** `organizations && organizations.length > 0 ? organizations : []`, with
      a null prop as None. */
  function DisplayOrganizations(orgs: Option<seq<Organization>>): (r: seq<Organization>)
    ensures r != [] ==> orgs == Some(r)
    ensures orgs.Some? ==> r == orgs.value
  {
    if orgs.Some? && |orgs.value| > 0 then orgs.value else []
  }

  /** The `prev.map(...)` of `handleAddCandidate`: every organization whose
      id is `orgId` gets its count raised by one. */
  function IncrementCount(orgs: seq<Organization>, orgId: int): (r: seq<Organization>)
    ensures |r| == |orgs|
  {
    if orgs == [] then []
    else
      var o := orgs[0];
      [if o.id == orgId then o.(candidateCount := o.candidateCount + 1) else o] + IncrementCount(orgs[1..], orgId)
  }

  /** Entry i keeps its id and name; its count rises by exactly one when its
      id is `orgId` and is unchanged otherwise. */
  lemma {:induction false} IncrementCountAt(orgs: seq<Organization>, orgId: int, i: int)
    requires 0 <= i < |orgs|
    ensures var r := IncrementCount(orgs, orgId);
      && r[i].id == orgs[i].id && r[i].name == orgs[i].name
      && r[i].candidateCount == orgs[i].candidateCount + (if orgs[i].id == orgId then 1 else 0)
  {
    if i > 0 {
      IncrementCountAt(orgs[1..], orgId, i - 1);
    }
  }

  /** An id no organization has changes nothing. */
  lemma {:induction false} IncrementUnknownIsIdentity(orgs: seq<Organization>, orgId: int)
    requires forall i :: 0 <= i < |orgs| ==> orgs[i].id != orgId
    ensures IncrementCount(orgs, orgId) == orgs
  {
    if orgs != [] {
      IncrementUnknownIsIdentity(orgs[1..], orgId);
    }
  }

  /** Ids are positions counted from 1, as the seeds and `length + 1` make them. */
  predicate PositionalIds(orgs: seq<Organization>) {
    forall i :: 0 <= i < |orgs| ==> orgs[i].id == i + 1
  }

  /** Positional ids are unique. */
  lemma PositionalIdsAreUnique(orgs: seq<Organization>, i: int, j: int)
    requires PositionalIds(orgs)
    requires 0 <= i < |orgs| && 0 <= j < |orgs| && i != j
    ensures orgs[i].id != orgs[j].id
  {
  }

  /** The `AppWrapper` demo store. */
  class AppWrapper {
    var organizations: seq<Organization>

    /** Ids equal position + 1 and counts are never negative. */
    ghost predicate Valid()
      reads this
    {
      && PositionalIds(organizations)
      && forall i :: 0 <= i < |organizations| ==> organizations[i].candidateCount >= 0
    }

    /** The three seeded organizations. */
    constructor ()
      ensures Valid()
      ensures organizations == [
        Organization(1, "Student Council Election", 3),
        Organization(2, "Department Head Vote", 5),
        Organization(3, "Quarterly Research Budget", 2)]
    {
      organizations := [
        Organization(1, "Student Council Election", 3),
        Organization(2, "Department Head Vote", 5),
        Organization(3, "Quarterly Research Budget", 2)];
    }

    /** `handleAddOrganization`: appends `{id: length + 1, name, candidateCount: 0}`. */
    method AddOrganization(name: string)
      requires Valid()
      modifies this
      ensures Valid()
      ensures organizations == old(organizations) + [Organization(|old(organizations)| + 1, name, 0)]
    {
      organizations := organizations + [Organization(|organizations| + 1, name, 0)];
    }

    /** `handleAddCandidate`: raises the count of the organization with id
        `orgId` by one; the list's length, order, ids and names and every
        other count stay, and an unknown id changes nothing. */
    method AddCandidate(candidateName: string, orgId: int)
      requires Valid()
      modifies this
      ensures Valid()
      ensures organizations == IncrementCount(old(organizations), orgId)
      ensures |organizations| == |old(organizations)|
      ensures forall i :: 0 <= i < |organizations| ==>
        && organizations[i].id == old(organizations)[i].id
        && organizations[i].name == old(organizations)[i].name
        && organizations[i].candidateCount == old(organizations)[i].candidateCount + (if i + 1 == orgId then 1 else 0)
      ensures !(1 <= orgId <= |old(organizations)|) ==> organizations == old(organizations)
    {
      var before := organizations;
      forall i | 0 <= i < |before|
        ensures IncrementCount(before, orgId)[i].id == before[i].id
        ensures IncrementCount(before, orgId)[i].name == before[i].name
        ensures IncrementCount(before, orgId)[i].candidateCount == before[i].candidateCount + (if i + 1 == orgId then 1 else 0)
      {
        IncrementCountAt(before, orgId, i);
      }
      if !(1 <= orgId <= |before|) {
        IncrementUnknownIsIdentity(before, orgId);
      }
      organizations := IncrementCount(organizations, orgId);
    }
  }

  /** The form state of the admin console. `isProcessing` is only true
      inside a submit step, so it is not kept. */
  class AdminDashboard {
    var showOrgForm: bool
    var showCandidateForm: bool
    var selectedOrgId: Option<int>
    var orgName: string
    var candidateName: string

    constructor ()
      ensures showOrgForm && !showCandidateForm && selectedOrgId == None
      ensures orgName == "" && candidateName == ""
    {
      showOrgForm := true;
      showCandidateForm := false;
      selectedOrgId := None;
      orgName := "";
      candidateName := "";
    }

    /** The default-selection effect: with organizations to display and no
        selection, the first one's id is selected; otherwise the selection
        is left as it is. */
    method SelectDefault(orgs: Option<seq<Organization>>)
      modifies this`selectedOrgId
      ensures var shown := DisplayOrganizations(orgs);
        selectedOrgId == if |shown| > 0 && old(selectedOrgId) == None then Some(shown[0].id) else old(selectedOrgId)
    {
      var shown := DisplayOrganizations(orgs);
      if |shown| > 0 && selectedOrgId == None {
        selectedOrgId := Some(shown[0].id);
      }
    }

    /** The "add organization" card: shows that form and hides the other. */
    method OpenOrganizationForm()
      modifies this`showOrgForm, this`showCandidateForm
      ensures showOrgForm && !showCandidateForm
    {
      showCandidateForm := false;
      showOrgForm := true;
    }

    /** The "add candidate" card: shows that form and hides the other. */
    method OpenCandidateForm()
      modifies this`showOrgForm, this`showCandidateForm
      ensures !showOrgForm && showCandidateForm
    {
      showOrgForm := false;
      showCandidateForm := true;
    }

    /** The cancel button of the organization form. */
    method CancelOrganizationForm()
      modifies this`showOrgForm
      ensures !showOrgForm
    {
      showOrgForm := false;
    }

    /** The cancel button of the candidate form. */
    method CancelCandidateForm()
      modifies this`showCandidateForm
      ensures !showCandidateForm
    {
      showCandidateForm := false;
    }

    /** Typing into the organization name field. */
    method EnterOrgName(text: string)
      modifies this`orgName
      ensures orgName == text
    {
      orgName := text;
    }

    /** Typing into the candidate name field. */
    method EnterCandidateName(text: string)
      modifies this`candidateName
      ensures candidateName == text
    {
      candidateName := text;
    }

    /** Choosing an organization in the select. */
    method ChooseOrganization(orgId: int)
      modifies this`selectedOrgId
      ensures selectedOrgId == Some(orgId)
    {
      selectedOrgId := Some(orgId);
    }

    /** `handleAddOrganization`: a blank name makes no call and changes
        nothing; otherwise `onAddOrganization(orgName)` is called and, when
        it resolves, the name is cleared. */
    method SubmitOrganization(callbackResolves: bool) returns (call: Option<string>)
      modifies this`orgName
      ensures call.Some? <==> !IsBlank(old(orgName))
      ensures call.Some? ==> call.value == old(orgName)
      ensures orgName == if call.Some? && callbackResolves then "" else old(orgName)
    {
      TrimEmptyIffBlank(orgName);
      if Trim(orgName) == [] {
        return None;
      }
      call := Some(orgName);
      if callbackResolves {
        orgName := "";
      }
    }

    /** `handleAddCandidate`: a blank name or a falsy selection makes no
        call and changes nothing; otherwise `onAddCandidate(candidateName,
        selectedOrgId)` is called and, when it resolves, the name is cleared
        while the selection is kept for the next entry. */
    method SubmitCandidate(callbackResolves: bool) returns (call: Option<(string, int)>)
      modifies this`candidateName
      ensures call.Some? <==> !IsBlank(old(candidateName)) && TruthyNumber(selectedOrgId)
      ensures call.Some? ==> call.value == (old(candidateName), selectedOrgId.value)
      ensures candidateName == if call.Some? && callbackResolves then "" else old(candidateName)
    {
      TrimEmptyIffBlank(candidateName);
      if Trim(candidateName) == [] || !TruthyNumber(selectedOrgId) {
        return None;
      }
      call := Some((candidateName, selectedOrgId.value));
      if callbackResolves {
        candidateName := "";
      }
    }
  }

  /** The organization form wired to `AppWrapper.handleAddOrganization`,
      which always resolves: a blank name leaves form and store as they
      were; otherwise the organization is appended and the name cleared.
      The form's visibility flags, selection and candidate name are outside
      the frame. */
  method SubmitOrganizationForm(form: AdminDashboard, store: AppWrapper)
    requires store.Valid()
    modifies form`orgName, store
    ensures store.Valid()
    ensures store.organizations ==
      if IsBlank(old(form.orgName)) then old(store.organizations)
      else old(store.organizations) + [Organization(|old(store.organizations)| + 1, old(form.orgName), 0)]
    ensures form.orgName == if IsBlank(old(form.orgName)) then old(form.orgName) else ""
  {
    var call := form.SubmitOrganization(true);
    if call.Some? {
      store.AddOrganization(call.value);
    }
  }

  /** The candidate form wired to `AppWrapper.handleAddCandidate`, which
      always resolves: a blank name or a falsy selection leaves form and
      store as they were; otherwise the selected organization's count rises
      and the name is cleared, the selection kept. The visibility flags and
      the organization name are outside the frame. */
  method SubmitCandidateForm(form: AdminDashboard, store: AppWrapper)
    requires store.Valid()
    modifies form`candidateName, store
    ensures store.Valid()
    ensures store.organizations ==
      if IsBlank(old(form.candidateName)) || !TruthyNumber(form.selectedOrgId) then old(store.organizations)
      else IncrementCount(old(store.organizations), form.selectedOrgId.value)
    ensures form.candidateName ==
      if IsBlank(old(form.candidateName)) || !TruthyNumber(form.selectedOrgId) then old(form.candidateName) else ""
    ensures form.selectedOrgId == old(form.selectedOrgId)
  {
    var call := form.SubmitCandidate(true);
    if call.Some? {
      store.AddCandidate(call.value.0, call.value.1);
    }
  }
}
