# BlockVote client state machines in Dafny

BlockVote is a decentralized-voting demo. A browser client connects to a
wallet, reads organizations, candidates and vote flags from a voting
contract, and declares handlers through which the contract owner would add
organizations and candidates. The admin console App.jsx renders is the
prop-less demo `AppWrapper`, so nothing in the repository calls them.
The contract is not in the repository: only its interface strings are
(frontend/src/App.jsx:12-27). So this model does not cover the ledger rules
the client expects the contract to enforce, such as one vote per address per
organization, vote tallies and owner-only creation. It models the logic that
is in the repository: three small client-side state machines.

- `MockVoting` (frontend/src/components/VotingPage.jsx): the in-memory election
  demo, modelled as the class `App`. It holds:
  - id counters seeded at 4 and 300;
  - the organization list;
  - candidate lists keyed by organization id;
  - the set of organizations voted in;
  - the `list` / `voting` / `admin` view machine.

  The file's guards are pure functions: the vote and selection guards of
  `VotingPage` and the `canVote` test of `OrganizationList`. Its inline
  `AdminDashboard` form state is a class whose submit guards reject blank
  names. Proved:
  - organization ids ascend and stay below their counter;
  - candidate ids are unique across all lists;
  - derived candidate counts equal list lengths;
  - each handler changes only its target entry;
  - recording a vote is idempotent.
- `MockAdmin` (frontend/src/components/AdminDashboard.jsx): the admin console
  form (`AdminDashboard`) and the `AppWrapper` demo store. In `AppWrapper`:
  - an organization's id is its position + 1;
  - adding a candidate raises only the matching organization's stored count.
- `WalletApp` (frontend/src/App.jsx): the session and page machine:
  - connecting a wallet;
  - admin detection by case-insensitive address comparison;
  - the vote-status loop of `loadOrganizations`;
  - guarded navigation;
  - the transition after a successful vote;
  - the disconnect reset;
  - what the render shows.

  The outcomes of wallet and contract calls are inputs:
  - a `WalletReply` for the wallet request;
  - a `ChainView` of the contract's answers, where None means the call throws;
  - whether a transaction succeeded.
- `JsValues`, `JsStrings`: JavaScript `null` and truthiness, plus
  `String.prototype.trim` over the whitespace set of ECMA-262 sections 12.2
  and 12.3. Also ASCII `toLowerCase`.

Each asynchronous handler is one atomic step. Code that mutates component
state is a class whose methods state the whole new state. The pure parts are
functions with lemmas about them.

## Model

| member | source | states |
|---|---|---|
| JsStrings.TrimStart | frontend/src/components/AdminDashboard.jsx:28 | the result is a suffix of the input; what it drops is blank; it does not start with whitespace |
| JsStrings.TrimEnd | frontend/src/components/AdminDashboard.jsx:28 | the result is a prefix of the input; what it drops is blank; it does not end with whitespace |
| JsStrings.Trim | frontend/src/components/AdminDashboard.jsx:28 | the trimmed string is the input with a blank prefix and a blank suffix removed, and is empty or starts and ends with a non-whitespace character |
| JsStrings.TrimEmptyIffBlank | frontend/src/components/AdminDashboard.jsx:28 | `!s.trim()` holds exactly when every character of `s` is whitespace |
| JsStrings.ToLowerCase | frontend/src/App.jsx:87 | lower-casing keeps the length and maps each character on its own |
| JsStrings.LowerCharEqualIff | frontend/src/App.jsx:87 | two characters compare equal ignoring case exactly when they are equal or are the two cases of one ASCII letter |
| JsStrings.SameIgnoringCaseIff | frontend/src/App.jsx:87 | two addresses match ignoring case iff they have the same length and agree at every position up to letter case |
| JsStrings.SameIgnoringCaseIsEquivalence | frontend/src/App.jsx:87 | the case-insensitive address comparison is reflexive, symmetric and transitive |
| MockVoting.WithCounts | frontend/src/components/VotingPage.jsx:669-674 | the derived list has one entry per organization |
| MockVoting.WithCountsAt | frontend/src/components/VotingPage.jsx:669-674 | derived entry i keeps organization i's id, name and position, and its count is the length of that organization's candidate list, 0 when absent |
| MockVoting.WithCountsAppend | frontend/src/components/VotingPage.jsx:669-674 | appending an organization appends its derived entry and leaves the earlier entries unchanged |
| MockVoting.AscendingIdsAreOrdered | frontend/src/components/VotingPage.jsx:644-652 | ids that ascend between neighbours ascend between any two positions, so they are unique |
| MockVoting.AppendCandidateKeepsIdsDistinct | frontend/src/components/VotingPage.jsx:692-713 | appending a candidate numbered by the counter keeps all candidate ids distinct, and the advanced counter stays above every id |
| MockVoting.ResetListKeepsIdsDistinct | frontend/src/components/VotingPage.jsx:684 | storing an empty list under an id keeps candidate ids distinct and below the counter |
| MockVoting.NewOrganizationHasNoCandidates | frontend/src/components/VotingPage.jsx:678-690 | a newly added organization is listed last with a count of 0, even if a list was stored under its id before |
| MockVoting.ResetUnlistedKeepsCounts | frontend/src/components/VotingPage.jsx:684 | an empty list stored under an id no listed organization has changes no derived count |
| MockVoting.AddCandidateCounts | frontend/src/components/VotingPage.jsx:704-707 | adding a candidate raises the count of organizations with that id by exactly one; ids, names, order and other counts stay |
| MockVoting.OrganizationClick | frontend/src/components/VotingPage.jsx:588-595 | a card selects its organization iff the organization's candidate count is positive |
| MockVoting.OrganizationClickIff | frontend/src/components/VotingPage.jsx:588-595 | on the store's derived list, card i is selectable iff organization i's candidate list is non-empty |
| MockVoting.CandidateClick | frontend/src/components/VotingPage.jsx:197 | once the organization is voted a click leaves the selection as it was; otherwise the clicked candidate is selected |
| MockVoting.VoteCall | frontend/src/components/VotingPage.jsx:131-142 | `onVote` is called iff a candidate is selected and the organization is not yet voted, with the organization id and the selected candidate's id |
| MockVoting.App.constructor | frontend/src/components/VotingPage.jsx:642-666 | seeds organizations 1..3 and candidates 101, 201, 202, with counters 4 and 300 above them, and the invariant holds |
| MockVoting.App.OrganizationsWithCount | frontend/src/components/VotingPage.jsx:669-674 | the derived list has the organizations' length, order, ids and names |
| MockVoting.App.AddOrganization | frontend/src/components/VotingPage.jsx:678-690 | appends `{id: nextOrgId, name}`, stores an empty list under it and advances the counter by one; the derived list gains one entry with count 0; ids stay ascending and below the counter |
| MockVoting.App.AddCandidate | frontend/src/components/VotingPage.jsx:692-713 | appends the candidate to its organization's list, creating the list when missing; every other list stays; the counter advances by one; candidate ids stay unique |
| MockVoting.App.HasVotedForOrg | frontend/src/components/VotingPage.jsx:731-733 | true exactly for the organizations in the voted set, so false for all of them before any vote |
| MockVoting.App.Vote | frontend/src/components/VotingPage.jsx:735-745 | the organization becomes voted; other organizations' status stays; repeating the vote leaves the set as it was; no candidate data changes |
| MockVoting.App.SelectOrg | frontend/src/components/VotingPage.jsx:717-720 | selects the organization and opens the voting view |
| MockVoting.App.GoToAdmin | frontend/src/components/VotingPage.jsx:722-724 | opens the admin view |
| MockVoting.App.BackToMain | frontend/src/components/VotingPage.jsx:726-729 | returns to the list view with the selection cleared |
| MockVoting.App.CurrentScreen | frontend/src/components/VotingPage.jsx:749-796 | the admin console shows iff the view is `admin`; the voting page shows iff the view is `voting` with an organization selected, and then with that organization's candidates; under the invariant the voting view always has one |
| MockVoting.AdminDashboard.constructor | frontend/src/components/VotingPage.jsx:279-284 | starts on the organization form with no selection and empty names |
| MockVoting.AdminDashboard.SyncWithOrganizations | frontend/src/components/VotingPage.jsx:291-299 | with organizations and no selection, selects the first and shows the candidate form; with none, shows the organization form and clears the selection; otherwise changes nothing |
| MockVoting.AdminDashboard.ShowOrganizationForm | frontend/src/components/VotingPage.jsx:373 | shows the organization form |
| MockVoting.AdminDashboard.ShowCandidateForm | frontend/src/components/VotingPage.jsx:390-391 | shows the candidate form unless there are no organizations, in which case nothing changes |
| MockVoting.AdminDashboard.EnterOrgName | frontend/src/components/VotingPage.jsx:421 | the organization name becomes the typed text |
| MockVoting.AdminDashboard.EnterCandidateName | frontend/src/components/VotingPage.jsx:481 | the candidate name becomes the typed text |
| MockVoting.AdminDashboard.ChooseOrganization | frontend/src/components/VotingPage.jsx:459 | the chosen organization id becomes the selection |
| MockVoting.AdminDashboard.SubmitOrganization | frontend/src/components/VotingPage.jsx:302-315 | calls back iff the name is not blank, with that name; when the callback resolves, the name is cleared and the candidate form is shown; otherwise nothing changes |
| MockVoting.AdminDashboard.SubmitCandidate | frontend/src/components/VotingPage.jsx:317-329 | calls back iff the name is not blank and the selection is truthy, with the name and the selected id; when the callback resolves, the name is cleared |
| MockVoting.SubmitOrganizationForm | frontend/src/components/VotingPage.jsx:753-759 | a blank organization name leaves form and store unchanged; any other name is added with the next id, an empty candidate list is stored under it, the counter advances, and the form is cleared and switched to candidates; the voted set, view, selection and candidate counter never change |
| MockVoting.SubmitCandidateForm | frontend/src/components/VotingPage.jsx:753-759 | with a non-blank name and a truthy selection, the candidate is appended to the selected organization's list under the counter, the counter advances and the name is cleared; otherwise form and store are unchanged; organizations, the voted set, view and selection never change |
| MockVoting.ClickOrganization | frontend/src/components/VotingPage.jsx:594 | a card click selects the organization and opens the voting view iff its count is positive; otherwise the view and selection stay; nothing else in the store can change |
| MockVoting.CastVoteFromPage | frontend/src/components/VotingPage.jsx:764-772 | a vote records the organization only when a candidate is selected; an already-voted organization stays voted; only the voted set can change |
| MockAdmin.DisplayOrganizations | frontend/src/components/AdminDashboard.jsx:14 | the displayed list is the given one when it is given, and empty for a null prop |
| MockAdmin.IncrementCount | frontend/src/components/AdminDashboard.jsx:410-415 | the per-organization update keeps the list's length |
| MockAdmin.IncrementCountAt | frontend/src/components/AdminDashboard.jsx:410-415 | entry i keeps its id and name; its count rises by exactly one iff its id is the target |
| MockAdmin.IncrementUnknownIsIdentity | frontend/src/components/AdminDashboard.jsx:410-415 | an id no organization has leaves the list unchanged |
| MockAdmin.PositionalIdsAreUnique | frontend/src/components/AdminDashboard.jsx:389-402 | ids equal to position + 1 are unique |
| MockAdmin.AppWrapper.constructor | frontend/src/components/AdminDashboard.jsx:389-393 | seeds organizations 1..3, whose ids are their positions + 1 |
| MockAdmin.AppWrapper.AddOrganization | frontend/src/components/AdminDashboard.jsx:395-406 | appends `{id: length + 1, name, candidateCount: 0}`; ids stay equal to position + 1 |
| MockAdmin.AppWrapper.AddCandidate | frontend/src/components/AdminDashboard.jsx:408-419 | raises by one the count of the organization at position orgId - 1; length, order, ids, names and other counts stay; an unknown id changes nothing |
| MockAdmin.AdminDashboard.constructor | frontend/src/components/AdminDashboard.jsx:5-11 | starts with the organization form shown, no selection and empty names |
| MockAdmin.AdminDashboard.SelectDefault | frontend/src/components/AdminDashboard.jsx:17-22 | with organizations displayed and no selection, selects the first one's id; otherwise the selection is unchanged |
| MockAdmin.AdminDashboard.OpenOrganizationForm | frontend/src/components/AdminDashboard.jsx:196 | shows the organization form and hides the candidate form |
| MockAdmin.AdminDashboard.OpenCandidateForm | frontend/src/components/AdminDashboard.jsx:216 | shows the candidate form and hides the organization form |
| MockAdmin.AdminDashboard.CancelOrganizationForm | frontend/src/components/AdminDashboard.jsx:258 | hides the organization form |
| MockAdmin.AdminDashboard.CancelCandidateForm | frontend/src/components/AdminDashboard.jsx:326 | hides the candidate form |
| MockAdmin.AdminDashboard.EnterOrgName | frontend/src/components/AdminDashboard.jsx:248 | the organization name becomes the typed text |
| MockAdmin.AdminDashboard.EnterCandidateName | frontend/src/components/AdminDashboard.jsx:316 | the candidate name becomes the typed text |
| MockAdmin.AdminDashboard.ChooseOrganization | frontend/src/components/AdminDashboard.jsx:294 | the chosen organization id becomes the selection |
| MockAdmin.AdminDashboard.SubmitOrganization | frontend/src/components/AdminDashboard.jsx:26-38 | calls back iff the name is not blank, with that name; clears the name only when the callback resolves |
| MockAdmin.AdminDashboard.SubmitCandidate | frontend/src/components/AdminDashboard.jsx:40-54 | calls back iff the name is not blank and the selection is truthy; clears the name when the callback resolves and always keeps the selection |
| MockAdmin.SubmitOrganizationForm | frontend/src/components/AdminDashboard.jsx:426-433 | a blank name leaves the store unchanged; any other name is appended with id length + 1 and count 0, and the field is cleared; the form's other fields never change |
| MockAdmin.SubmitCandidateForm | frontend/src/components/AdminDashboard.jsx:426-433 | a blank name or falsy selection leaves the store unchanged; otherwise the selected organization's count rises by one and the name is cleared; the selection and the form's other fields never change |
| WalletApp.CollectVoteStatus | frontend/src/App.jsx:159-168 | the loop yields one entry per loaded organization id, true exactly when the query answered true, and false when it threw |
| WalletApp.VotedFlagAfterLoad | frontend/src/App.jsx:282-284 | after a load, an organization reads as voted iff it was loaded and the contract answered true for it; absent ones read false |
| WalletApp.AdminFlag | frontend/src/App.jsx:85-92 | the admin flag implies the owner answered with an address as long as the account's, and an owner equal to the account makes it true |
| WalletApp.AdminFlagIff | frontend/src/App.jsx:87 | the account is admin iff the owner answered and its address equals the account ignoring ASCII letter case |
| WalletApp.App.constructor | frontend/src/App.jsx:30-44 | starts on the landing page with no account, contract, admin flag, organizations, selection or vote flags |
| WalletApp.App.HasAccount | frontend/src/App.jsx:269 | the `if (account)` test: an account is set and is not the empty string |
| WalletApp.App.HasVotedInOrg | frontend/src/App.jsx:282-284 | returns the stored flag, and false for an organization absent from the map |
| WalletApp.App.LoadOrganizations | frontend/src/App.jsx:129-174 | without a contract the list is emptied and the flags kept; otherwise the list becomes the contract's, empty when that call throws, with exactly one vote flag per loaded id |
| WalletApp.App.LoadCandidates | frontend/src/App.jsx:177-197 | the candidates become the contract's list for the organization; they are empty without a contract or when the call throws |
| WalletApp.App.ConnectWallet | frontend/src/App.jsx:47-126 | without a wallet only the connecting flag changes; a failed request clears the account; an approval sets the account and opens the organizations page, with contract, admin flag and list set by how the contract answers |
| WalletApp.App.AddOrganization | frontend/src/App.jsx:200-215 | without a contract or on a failed transaction nothing changes; otherwise organizations and vote flags are reloaded |
| WalletApp.App.AddCandidate | frontend/src/App.jsx:218-233 | without a contract or on a failed transaction nothing changes; otherwise organizations and vote flags are reloaded |
| WalletApp.App.CastVote | frontend/src/App.jsx:236-258 | without a contract or on a failed transaction no state changes; on success data is reloaded and the page returns to organizations with the selection cleared |
| WalletApp.App.SelectOrganization | frontend/src/App.jsx:261-265 | selects the organization, loads its candidates and opens the voting page |
| WalletApp.App.NavigateToVoting | frontend/src/App.jsx:268-272 | opens the organizations page iff an account is set; otherwise the page is unchanged; a selected organization stays selected, so the voting page is not shown again until the page is `voting` |
| WalletApp.App.NavigateToAdmin | frontend/src/App.jsx:275-279 | opens the admin page iff an account is set and is admin; otherwise the page is unchanged |
| WalletApp.App.GoToAdmin | frontend/src/App.jsx:355 | switches to the admin page without a check |
| WalletApp.App.BackFromVoting | frontend/src/App.jsx:364-367 | back to the organizations page with the selection cleared |
| WalletApp.App.BackFromAdmin | frontend/src/App.jsx:377 | back to the organizations page |
| WalletApp.App.DisconnectWallet | frontend/src/App.jsx:287-299 | resets to the landing page with no account, contract, admin flag, organizations, selection or candidates; the vote flags are untouched; the render shows only the landing page |
| WalletApp.App.Render | frontend/src/App.jsx:325-381 | navigation shows iff an account is set; the admin console shows iff the page is admin and the account is admin; the voting page shows iff the page is `voting` and an organization is selected; under the invariant the only blank render is a non-admin on the admin page |

## Left out

- The voting contract's rules are not part of this model. Its source is not in the repository, only its interface. These rules are one vote per address per organization, vote tallies, owner-only creation and their error cases.
- Wallet and contract I/O is not modelled: ethers/MetaMask calls, `tx.wait()`, alerts, console output and the status message. Their outcomes are inputs (`WalletReply`, `ChainView`, `txSucceeds`).
- The `accountsChanged` and `chainChanged` listeners are not modelled. They disconnect or reload the page, and a reload is outside the model.
- Timers and promises are left out. Each handler is one atomic step, so `isProcessing` and `isVoting`, which are only true inside a step, are not kept.
- Two handlers in flight at once are not modelled. Both would read the same `nextOrgId` or `organizations.length` from their closure.
- The random `placeholderVotes` of the mock `handleAddCandidate` is a parameter limited to 100..599.
- JsStrings.ToLowerCase: lower-cases only the ASCII letters, whereas `toLowerCase` covers all of Unicode. Wallet addresses are hexadecimal, so ASCII suffices for the comparison in App.jsx.
- `Number(e.target.value)` giving NaN is not modelled. Selections are integer ids.
- BigNumber `toNumber` overflow is not modelled. Ids and counts are unbounded naturals.
- `provider` and `signer` are one flag, `walletLinked`, because they are always set and cleared together.
- An approved wallet request yields exactly one account. An empty account array is not modelled.
- frontend/src/components/OrganizationList.jsx, which App.jsx imports, is not part of this model. App.jsx's `onGoToAdmin` and `onSelectOrganization` handlers are modelled; the component's own logic is not.
- The wiring from App.jsx's `VotingPage` props to `castVote` is not modelled. That import resolves to the mock `App` of VotingPage.jsx, which ignores those props. The inline `VotingPage` calls `onVote(organizationId, candidateId)`, while `castVote` takes a single `candidateId`. `WalletApp.App.CastVote` takes the candidate id as App.jsx declares it.
- WalletApp.App.AddOrganization: models App.jsx's `addOrganization`, which nothing in the repository calls. App.jsx passes it as `onAddOrganization` to the default export of AdminDashboard.jsx, which is the prop-less `AppWrapper`; the console's submit goes to `AppWrapper`'s own handler (modelled as `MockAdmin.SubmitOrganizationForm`).
- WalletApp.App.AddCandidate: models App.jsx's `addCandidate`, which nothing in the repository calls, for the same reason; the console's candidate submit goes to `AppWrapper` (modelled as `MockAdmin.SubmitCandidateForm`).
- Markup, CSS, LandingPage.jsx and Navigation.jsx are presentational and left out. The backend mining script and the build configuration are left out too.
