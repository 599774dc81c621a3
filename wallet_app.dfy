/** frontend/src/App.jsx: the session and page state machine of the wallet
    client. Wallet and contract calls are not part of the model: each handler
    receives what they answered (a `WalletReply`, a `ChainView`, whether a
    transaction succeeded), and each asynchronous handler is one atomic step. */
module WalletApp {
  import opened JsValues
  import opened JsStrings

  /** An organization as `getAllOrganizations` returns it. */
  datatype Organization = Organization(id: nat, name: string, isActive: bool, candidateCount: nat)

  /** A candidate as `getCandidatesByOrganization` returns it. */
  datatype Candidate = Candidate(id: nat, name: string, voteCount: nat, organizationId: nat)

  /** The value of `currentPage`. */
  datatype Page = Landing | Organizations | Voting | Admin

  /** The contract's answers during one handler, as the connected account
      sees them; None stands for a call that throws. */
  datatype ChainView = ChainView(
    allOrganizations: Option<seq<Organization>>,
    hasUserVoted: nat -> Option<bool>,
    candidatesByOrganization: nat -> Option<seq<Candidate>>)

  /** How the contract behaves right after the wallet connects: building the
      contract object throws; `organizationCount()` throws; or it answers and
      `owner()` answers (Some) or throws (None). */
  datatype ContractReply = ConstructionFails | Unreachable | Reachable(owner: Option<string>)

  /** The outcome of asking the browser wallet for accounts. */
  datatype WalletReply =
    | NoProvider
    | RequestFails
    | Approved(account: string, contract: ContractReply)

  /** The page components the render shows. */
  datatype Content =
    | LandingContent
    | ListContent(organizations: seq<Organization>)
    | VotingContent(organization: Organization, candidates: seq<Candidate>)
    | AdminContent(organizations: seq<Organization>)

  /** A render: whether the navigation bar is shown, and the page component
      shown, if any. */
  datatype Rendered = Rendered(navigation: bool, content: Option<Content>)

  /** The ids of a list of organizations. */
  function OrgIds(orgs: seq<Organization>): set<nat> {
    set o | o in orgs :: o.id
  }

  /** The vote-status dictionary `loadOrganizations` builds: one entry per
      loaded organization id, holding the contract's answer, or false when
      the query throws. */
  function VoteStatus(orgs: seq<Organization>, hasUserVoted: nat -> Option<bool>): map<nat, bool> {
    map id | id in OrgIds(orgs) :: hasUserVoted(id).GetOr(false)
  }

  /** The `for (let org of orgsArray)` loop of `loadOrganizations`: one query
      per organization, in list order, each answer stored under its id. */
  method CollectVoteStatus(orgs: seq<Organization>, hasUserVoted: nat -> Option<bool>) returns (status: map<nat, bool>)
    ensures status == VoteStatus(orgs, hasUserVoted)
    ensures status.Keys == OrgIds(orgs)
    ensures forall id :: id in status ==> status[id] == (hasUserVoted(id) == Some(true))
  {
    status := map[];
    var i := 0;
    while i < |orgs|
      invariant 0 <= i <= |orgs|
      invariant status.Keys == OrgIds(orgs[..i])
      invariant forall id :: id in status ==> status[id] == hasUserVoted(id).GetOr(false)
    {
      var id := orgs[i].id;
      assert orgs[..i + 1] == orgs[..i] + [orgs[i]];
      assert OrgIds(orgs[..i + 1]) == OrgIds(orgs[..i]) + {id};
      status := status[id := hasUserVoted(id).GetOr(false)];
      i := i + 1;
    }
    assert orgs[..|orgs|] == orgs;
    assert status.Keys == VoteStatus(orgs, hasUserVoted).Keys;
  }

  /** `votedOrganizations[orgId] || false`. */
  function VotedFlag(voted: map<nat, bool>, orgId: nat): bool {
    if orgId in voted then voted[orgId] else false
  }

  /** After a load, an organization reads as voted exactly when it was
      loaded and the contract answered true for it. */
  lemma VotedFlagAfterLoad(orgs: seq<Organization>, hasUserVoted: nat -> Option<bool>, orgId: nat)
    ensures VotedFlag(VoteStatus(orgs, hasUserVoted), orgId) <==>
      orgId in OrgIds(orgs) && hasUserVoted(orgId) == Some(true)
  {
  }

  /** The admin flag set after connecting: the owner address equals the
      account ignoring case, and false when `owner()` throws. */
  function AdminFlag(owner: Option<string>, account: string): (r: bool)
    ensures r ==> owner.Some? && |owner.value| == |account|
    ensures owner.Some? && owner.value == account ==> r
  {
    owner.Some? && SameIgnoringCase(owner.value, account)
  }

  /** The admin flag holds exactly when the owner answered and its address
      and the account agree at every position up to the case of ASCII letters. */
  lemma AdminFlagIff(owner: Option<string>, account: string)
    ensures AdminFlag(owner, account) <==>
      owner.Some? && |owner.value| == |account|
      && forall i :: 0 <= i < |account| ==> LowerChar(owner.value[i]) == LowerChar(account[i])
  {
  }

  /** The state of the `App` component. `provider` and `signer` are set and
      cleared together and are kept as one flag; the status message is
      display text and is not kept. */
  class App {
    var account: Option<string>
    var contract: bool
    var walletLinked: bool
    var isAdmin: bool
    var currentPage: Page
    var organizations: seq<Organization>
    var selectedOrganization: Option<Organization>
    var candidates: seq<Candidate>
    var votedOrganizations: map<nat, bool>
    var isConnecting: bool

    /** The voting page always has an organization to show. */
    ghost predicate Valid()
      reads this
    {
      currentPage == Voting ==> selectedOrganization.Some?
    }

    constructor ()
      ensures Valid()
      ensures account == None && !contract && !walletLinked && !isAdmin
      ensures currentPage == Landing && organizations == [] && selectedOrganization == None
      ensures candidates == [] && votedOrganizations == map[] && !isConnecting
    {
      account := None;
      contract := false;
      walletLinked := false;
      isAdmin := false;
      currentPage := Landing;
      organizations := [];
      selectedOrganization := None;
      candidates := [];
      votedOrganizations := map[];
      isConnecting := false;
    }

    /** `if (account)`: an account is set and is not the empty string. */
    function HasAccount(): (r: bool)
      reads this
      ensures r <==> account.Some? && |account.value| > 0
      ensures r ==> account.value != ""
    {
      TruthyString(account)
    }

    /** `hasVotedInOrg`: the stored flag, false for an organization without one. */
    function HasVotedInOrg(orgId: nat): (r: bool)
      reads this
      ensures r ==> orgId in votedOrganizations
      ensures orgId in votedOrganizations ==> r == votedOrganizations[orgId]
    {
      VotedFlag(votedOrganizations, orgId)
    }

    /** `loadOrganizations`: without a contract the list is emptied and the
        vote flags kept; otherwise the list becomes the contract's (empty when
        that call throws) and the vote flags are rebuilt for exactly its ids. */
    method LoadOrganizations(chain: ChainView)
      requires Valid()
      modifies this`organizations, this`votedOrganizations
      ensures Valid()
      ensures !contract ==> organizations == [] && votedOrganizations == old(votedOrganizations)
      ensures contract ==>
        && organizations == chain.allOrganizations.GetOr([])
        && votedOrganizations == VoteStatus(organizations, chain.hasUserVoted)
    {
      if !contract {
        organizations := [];
        return;
      }
      organizations := chain.allOrganizations.GetOr([]);
      votedOrganizations := CollectVoteStatus(organizations, chain.hasUserVoted);
    }

    /** `loadCandidates`: empty without a contract or when the call throws. */
    method LoadCandidates(orgId: nat, chain: ChainView)
      requires Valid()
      modifies this`candidates
      ensures Valid()
      ensures candidates == if contract then chain.candidatesByOrganization(orgId).GetOr([]) else []
    {
      if !contract {
        candidates := [];
        return;
      }
      candidates := chain.candidatesByOrganization(orgId).GetOr([]);
    }

    /** `connectWallet`: with no wallet extension nothing but the connecting
        flag changes; a refused request clears the account; an approved one
        sets the account, and then the contract, the admin flag and the
        organization list according to how the contract answers, and opens
        the organizations page. */
    method ConnectWallet(reply: WalletReply, chain: ChainView)
      requires Valid()
      modifies this`account, this`walletLinked, this`contract, this`isAdmin,
        this`organizations, this`votedOrganizations, this`currentPage, this`isConnecting
      ensures Valid()
      ensures !isConnecting
      ensures reply.NoProvider? ==>
        && account == old(account) && walletLinked == old(walletLinked) && contract == old(contract)
        && isAdmin == old(isAdmin) && currentPage == old(currentPage)
        && organizations == old(organizations) && votedOrganizations == old(votedOrganizations)
      ensures reply.RequestFails? ==>
        && account == None && walletLinked == old(walletLinked) && contract == old(contract)
        && isAdmin == old(isAdmin) && currentPage == old(currentPage)
        && organizations == old(organizations) && votedOrganizations == old(votedOrganizations)
      ensures reply.Approved? ==>
        && account == Some(reply.account) && walletLinked && currentPage == Organizations
        && contract == !reply.contract.ConstructionFails?
        && isAdmin == (if reply.contract.Reachable? then AdminFlag(reply.contract.owner, reply.account) else old(isAdmin))
        && organizations == (if reply.contract.Reachable? then chain.allOrganizations.GetOr([]) else [])
        && votedOrganizations ==
             (if reply.contract.Reachable? then VoteStatus(organizations, chain.hasUserVoted) else old(votedOrganizations))
    {
      isConnecting := true;
      match reply
      case NoProvider =>
        isConnecting := false;
      case RequestFails =>
        account := None;
        isConnecting := false;
      case Approved(address, answer) =>
        walletLinked := true;
        account := Some(address);
        match answer {
          case ConstructionFails =>
            contract := false;
            organizations := [];
          case Unreachable =>
            contract := true;
            organizations := [];
          case Reachable(owner) =>
            contract := true;
            isAdmin := AdminFlag(owner, address);
            LoadOrganizations(chain);
        }
        currentPage := Organizations;
        isConnecting := false;
    }

    /** `addOrganization`: without a contract, or when the transaction fails,
        nothing changes; otherwise the organizations are reloaded. */
    method AddOrganization(name: string, txSucceeds: bool, chain: ChainView)
      requires Valid()
      modifies this`organizations, this`votedOrganizations
      ensures Valid()
      ensures if contract && txSucceeds then
          organizations == chain.allOrganizations.GetOr([]) && votedOrganizations == VoteStatus(organizations, chain.hasUserVoted)
        else organizations == old(organizations) && votedOrganizations == old(votedOrganizations)
    {
      if !contract || !txSucceeds {
        return;
      }
      LoadOrganizations(chain);
    }

    /** `addCandidate`: as `addOrganization`. */
    method AddCandidate(name: string, orgId: nat, txSucceeds: bool, chain: ChainView)
      requires Valid()
      modifies this`organizations, this`votedOrganizations
      ensures Valid()
      ensures if contract && txSucceeds then
          organizations == chain.allOrganizations.GetOr([]) && votedOrganizations == VoteStatus(organizations, chain.hasUserVoted)
        else organizations == old(organizations) && votedOrganizations == old(votedOrganizations)
    {
      if !contract || !txSucceeds {
        return;
      }
      LoadOrganizations(chain);
    }

    /** `castVote`: without a contract, or when the transaction fails, no
        state changes; on success the organizations and vote flags are
        reloaded, the selected organization's candidates too, and the page
        returns to the list with the selection cleared. */
    method CastVote(candidateId: nat, txSucceeds: bool, chain: ChainView)
      requires Valid()
      modifies this`organizations, this`votedOrganizations, this`candidates,
        this`currentPage, this`selectedOrganization
      ensures Valid()
      ensures !(contract && txSucceeds) ==>
        && organizations == old(organizations) && votedOrganizations == old(votedOrganizations)
        && candidates == old(candidates) && currentPage == old(currentPage)
        && selectedOrganization == old(selectedOrganization)
      ensures contract && txSucceeds ==>
        && organizations == chain.allOrganizations.GetOr([])
        && votedOrganizations == VoteStatus(organizations, chain.hasUserVoted)
        && candidates == (if old(selectedOrganization).Some?
                          then chain.candidatesByOrganization(old(selectedOrganization).value.id).GetOr([])
                          else old(candidates))
        && currentPage == Organizations && selectedOrganization == None
    {
      if !contract || !txSucceeds {
        return;
      }
      LoadOrganizations(chain);
      if selectedOrganization.Some? {
        LoadCandidates(selectedOrganization.value.id, chain);
      }
      currentPage := Organizations;
      selectedOrganization := None;
    }

    /** `handleSelectOrganization`: selects the organization, loads its
        candidates and opens the voting page. */
    method SelectOrganization(org: Organization, chain: ChainView)
      requires Valid()
      modifies this`selectedOrganization, this`candidates, this`currentPage
      ensures Valid()
      ensures selectedOrganization == Some(org) && currentPage == Voting
      ensures candidates == if contract then chain.candidatesByOrganization(org.id).GetOr([]) else []
    {
      selectedOrganization := Some(org);
      LoadCandidates(org.id, chain);
      currentPage := Voting;
    }

    /** `handleNavigateToVoting`: opens the organizations page when an
        account is set, and otherwise does nothing. The selected organization
        is outside the frame, so it stays selected. */
    method NavigateToVoting()
      requires Valid()
      modifies this`currentPage
      ensures Valid()
      ensures currentPage == if HasAccount() then Organizations else old(currentPage)
    {
      if HasAccount() {
        currentPage := Organizations;
      }
    }

    /** `handleNavigateToAdmin`: opens the admin page when an account is set
        and it is the admin, and otherwise does nothing. */
    method NavigateToAdmin()
      requires Valid()
      modifies this`currentPage
      ensures Valid()
      ensures currentPage == if HasAccount() && isAdmin then Admin else old(currentPage)
    {
      if HasAccount() && isAdmin {
        currentPage := Admin;
      }
    }

    /** The list's `onGoToAdmin`: switches the page without a check; the
        render still shows the console only to the admin. */
    method GoToAdmin()
      requires Valid()
      modifies this`currentPage
      ensures Valid()
      ensures currentPage == Admin
    {
      currentPage := Admin;
    }

    /** The voting page's `onBack`: back to the list, selection cleared. */
    method BackFromVoting()
      requires Valid()
      modifies this`currentPage, this`selectedOrganization
      ensures Valid()
      ensures currentPage == Organizations && selectedOrganization == None
    {
      currentPage := Organizations;
      selectedOrganization := None;
    }

    /** The admin console's `onBack`: back to the list. */
    method BackFromAdmin()
      requires Valid()
      modifies this`currentPage
      ensures Valid()
      ensures currentPage == Organizations
    {
      currentPage := Organizations;
    }

    /** `disconnectWallet`: back to the landing page with no account,
        contract, wallet link, admin flag, organizations, selection or
        candidates; the vote flags are left as they are. */
    method DisconnectWallet()
      requires Valid()
      modifies this`account, this`contract, this`walletLinked, this`isAdmin, this`currentPage,
        this`organizations, this`selectedOrganization, this`candidates, this`isConnecting
      ensures Valid()
      ensures account == None && !contract && !walletLinked && !isAdmin && !isConnecting
      ensures currentPage == Landing && organizations == [] && selectedOrganization == None && candidates == []
      ensures votedOrganizations == old(votedOrganizations)
      ensures Render() == Rendered(false, Some(LandingContent))
    {
      account := None;
      contract := false;
      walletLinked := false;
      isAdmin := false;
      currentPage := Landing;
      organizations := [];
      selectedOrganization := None;
      candidates := [];
      isConnecting := false;
    }

    /** The JSX returned by `App`: the navigation bar when an account is set,
        and the component of the current page, where the voting page needs a
        selected organization and the admin console needs the admin flag. */
    function Render(): (r: Rendered)
      reads this
      ensures r.navigation <==> HasAccount()
      ensures (r.content.Some? && r.content.value.AdminContent?) <==> currentPage == Admin && isAdmin
      ensures (r.content.Some? && r.content.value.VotingContent?) <==> currentPage == Voting && selectedOrganization.Some?
      ensures Valid() ==> (r.content.None? <==> currentPage == Admin && !isAdmin)
    {
      var content :=
        match currentPage
        case Landing => Some(LandingContent)
        case Organizations => Some(ListContent(organizations))
        case Voting =>
          if selectedOrganization.Some? then Some(VotingContent(selectedOrganization.value, candidates)) else None
        case Admin => if isAdmin then Some(AdminContent(organizations)) else None;
      Rendered(HasAccount(), content)
    }
  }
}
