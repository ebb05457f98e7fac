# agentic-coupler in Dafny

This project models the routing core of *agentic-coupler*. The coupler keeps a
registry of team members. Each member has an id, a role description, and may
be flagged as the default. One call of the coupler on a raw user request does
five things:

1. It refuses to work on an empty registry.
2. It asks a language model to split the request into sub-requests, and refuses an empty split.
3. It finds the default member.
4. It renders the registry as a prompt fragment.
5. It asks a language model to classify each sub-request, in order, and replaces
   the sentinel id `UNKNOWN` by the default member's id when there is a default.

The two language-model calls are parameters of the model:

- `Extractor` is the splitter: raw request to a sequence of sub-requests.
- `Classifier` maps the prompt fragment and one sub-request to a `TeamMember`.

The deterministic rest is modelled exactly, except as listed under "## Left out".

Files:

- `team_member.dfy` (module `TeamMembers`): the `TeamMember` record with its
  two required fields and the defaults of its three optional ones. It also
  defines `IsDefault`, which is the source's truthiness test on the flag.
- `agentic_coupler.dfy` (module `Coupling`):
  - the sentinel constant `UnknownTeamMember` (agentic_coupler/agentic_coupler.py:8);
  - the prompt pieces: `MemberLine` is the per-member f-string (line 88),
    `UnknownLine` is the closing line (line 89), and `MemberLines` joins the
    member lines in registry order (lines 86-88). Constants and functions that
    only compute are described by the lemma rows under "## Model";
  - the pure specification functions: default lookup, prompt fragment,
    fallback, and the result of a whole call;
  - the lemmas about those functions;
  - the class `AgenticCoupler`. Its `teamMembers` field is the registry.
    `AddTeamMember` appends to it. `BuildTeamMemberPrompt` and `Call` are the
    loops of the source, proved equal to the specification functions.
  - `WeatherScenario`, a client that routes an unmatched request first
    without a default and then with a `TEAM_MANAGER` default.

The model follows what the code does, where the source's own comments and
prompt text suggest more:

- The docstring of `add_team_member` calls the id a "Unique identifier"
  (agentic_coupler/agentic_coupler.py:17), and it describes the default flag
  as naming the one member that handles `UNKNOWN` requests (line 19). The code
  checks neither. The registry accepts duplicate ids and several default
  flags, and the default is the FIRST flagged member (line 84).
- Only the id is overwritten on fallback (line 132). Role, confidence, echoed
  request and flag stay as the classifier returned them.
- The classifier's prompt asks for a confidence "value from 0 to 1" (line 95).
  No code checks that range.

## Model

| member | source | states |
|---|---|---|
| `TeamMembers.RequiredFieldsOnly` | agentic_coupler/team_member.py:4-9 | a record given only its id and role keeps them, is not the default, has no user request and has confidence 0.0 |
| `Coupling.Registered` | agentic_coupler/agentic_coupler.py:24 | the registered record has the given id and role, is the default exactly when the flag was passed, has no user request and has confidence 0.0 |
| `Coupling.AgenticCoupler.constructor` | agentic_coupler/agentic_coupler.py:11 | a coupler starts with an empty registry |
| `Coupling.AgenticCoupler.AddTeamMember` | agentic_coupler/agentic_coupler.py:13-25 | registration appends exactly one record at the end; earlier members and their order are unchanged; the length grows by one whatever the id or flag |
| `Coupling.DefaultTeamMember` | agentic_coupler/agentic_coupler.py:84 | the lookup finds nothing exactly when no member is flagged; what it finds is a registered, flagged member |
| `Coupling.FirstDefaultWins` | agentic_coupler/agentic_coupler.py:84 | the default is the member at the first flagged index |
| `Coupling.DefaultAfterRegistering` | agentic_coupler/agentic_coupler.py:84 | registering a member never displaces an existing default; the new member becomes the default only if there was none and it is flagged |
| `TeamMembers.IsDefault` | agentic_coupler/agentic_coupler.py:84 | the flag test is Python truthiness on `Optional[bool]`: `True` is the default, while `False` and `None` are not |
| `Coupling.MemberLineNamesMember` | agentic_coupler/agentic_coupler.py:88 | a member's line opens with `Use ` and its id, and closes with its role and a newline; its length is that of the f-string's parts |
| `Coupling.UnknownLineNamesSentinel` | agentic_coupler/agentic_coupler.py:89 | the closing line opens with `Use ` and the sentinel `UNKNOWN` |
| `Coupling.NoLinesOnlyForNoMembers` | agentic_coupler/agentic_coupler.py:86-88 | the loop adds text exactly when the registry is not empty: every member contributes a non-empty line |
| `Coupling.TeamMemberPrompt` | agentic_coupler/agentic_coupler.py:86-89 | the fragment ends with the closing `Use UNKNOWN ...` line. For every member `i`, the fragment is the lines of the members before `i`, then `i`'s line, then the lines of the members after `i`, then the closing line |
| `Coupling.MemberLinesAppend` | agentic_coupler/agentic_coupler.py:87-88 | the lines of two registries placed end to end are the lines of the first followed by those of the second |
| `Coupling.FrontMemberLine` | agentic_coupler/agentic_coupler.py:87-88 | the first member's line comes before the lines of all later members |
| `Coupling.MemberLineAt` | agentic_coupler/agentic_coupler.py:87-88 | member `i`'s line appears whole, after the lines of the members before it and before the lines of the members after it |
| `Coupling.PromptAfterRegistering` | agentic_coupler/agentic_coupler.py:86-89 | registering a member puts its line after all earlier lines and just before the closing sentinel line |
| `Coupling.AgenticCoupler.BuildTeamMemberPrompt` | agentic_coupler/agentic_coupler.py:86-89 | the `+=` loop yields the fragment of the current registry |
| `Coupling.Fallback` | agentic_coupler/agentic_coupler.py:131-132 | fallback changes at most the id. A non-`UNKNOWN` id, including an unregistered one, passes through unchanged, and so does anything when there is no default. An `UNKNOWN` id becomes the default's id |
| `Coupling.UnknownSurvives` | agentic_coupler/agentic_coupler.py:131-132 | the result still says `UNKNOWN` exactly when the classifier said so and there is no default, or the default is itself registered as `UNKNOWN` |
| `Coupling.CoupleRequests` | agentic_coupler/agentic_coupler.py:125-136 | the result has one entry per sub-request, and entry `i` is the fallback-adjusted classification of sub-request `i` |
| `Coupling.Couple` | agentic_coupler/agentic_coupler.py:77-136 | an empty registry gives `NoTeamMembers`, whatever the splitter would answer. A non-empty registry with an empty split gives `NoUserRequests`. Otherwise the call succeeds with as many results as sub-requests, each the fallback-adjusted classification of its sub-request, in order |
| `Coupling.RoutedToDefault` | agentic_coupler/agentic_coupler.py:125-134 | a sub-request classified `UNKNOWN` ends up with the default's id, or keeps `UNKNOWN` when there is no default. Its role, confidence and echoed request are the classifier's |
| `Coupling.AgenticCoupler.Call` | agentic_coupler/agentic_coupler.py:67-136 | the checks and the classification loop of `__call__` return exactly `Couple` on the current registry |

## Left out

- The language-model calls (agentic_coupler/agentic_coupler.py:36-65 and
  117-128) are foreign network calls. The splitter and the classifier are
  total function parameters. A failing call, a response that does not parse,
  and a timeout are not modelled.
- The fixed instruction texts and task strings around the model calls
  (agentic_coupler/agentic_coupler.py:39-59, 63, 91-115, 127) are not modelled.
  They contain no logic. The classifier receives the registry's prompt fragment
  and the sub-request. The splitter receives the raw request.
- The in-place assignment of the id on the classifier's response object
  (agentic_coupler/agentic_coupler.py:132) is modelled as a record update.
  Each response is a fresh object, so no other reference can see the change.
- The registry is a class attribute in the source, so every coupler instance
  shares it. The model has a single coupler object whose constructor starts
  with an empty registry. Cross-instance sharing is not captured.
- Confidence is a model-reported float. It is an `Option<real>` that the
  model never computes with. No property about its value is stated.
- Whether the echoed `user_request` equals the sub-request is up to the
  language model, so no property about it is stated.
- Pydantic validation of field types and `debug_mode` are not modelled.
- The `UserRequests` schema wrapper and the `app.py` script are not part of
  this model. The split is a plain sequence of strings.
