# llm-interview-kit: verified model of its own logic

The repository is an interview bot on LiveKit and OpenAI's realtime model,
plus a job that syncs candidates from two Breezy HR accounts into Airtable.
Almost all of it calls external services. This project models the parts
that are the repository's own logic, and proves what they promise:

- **Candidate sync** (`breezy_airtable.dfy`, module `BreezyAirtable`).
  `Candidate.to_airtable` becomes a field mapping.
  The flattening in `fetch_candidates` becomes `FetchCandidates`. It takes
  the companies, their position lists and the listing call as parameters.
  The merge loop of `sync_it` becomes the method `MergeCandidates`. It
  indexes the "rocketdevs" candidates by email, then walks the "hiveminds"
  candidates. An email already present is re-tagged `Both`; a new one gets a
  `HiveMinds` record. The method is proved against the predicate `Merged`.
  `Merged` gives one record per email of either list. An email of the first
  list keeps the record of its *last* candidate there. An email only in the
  second list keeps the record of its *first* candidate there. It is tagged
  `Both` when it occurs twice in the second list, because the second
  occurrence takes the collision branch.
- **Session lifecycle** (`agent.dfy`, module `Agent`).
  `CandidateTracker` is the process-wide `defaultdict(int)` of joins per
  identity. `ShutdownTask` is the asyncio task of the delayed shutdown.
  `AgentSessionManager` is one session. Every call into LiveKit, the
  realtime model or Airtable is an `Event` appended to the session's
  `trace`. `Init` is proved to leave exactly the trace `SessionSteps`.
  Lemmas over `SessionSteps` give the gating. A rejected join (count above
  `MaxLimit` = 3) only shuts the room down. An admitted join starts the
  agent, arms the 600-second shutdown and updates the tracking record once
  each. It is recorded once unless the participant's name is `TEST`. These
  steps come in the source's fixed order. `Tally` and `Admissions` replay a
  run of joins. `AdmissionAt` shows that the k-th join is admitted iff it is
  at most the third join of its identity.
- **Token request route** (`grant_jwt.dfy`, module `GrantJwt`).
  The shared-secret check comes first. Then the room name
  `voice_assistant_room_<email with every @ turned into ->` is derived. It is
  `..._undefined` when the email is missing. Identity and name map empty or
  missing values to `undefined`. The token has one grant: the derived room
  with all four permission flags, and a `7d` lifetime. Signing (`toJwt`)
  is the parameter `sign`; `None` from it stands for the library throwing,
  which the route does not catch, so no response is produced.
- **Token check route** (`verify_route.dfy`, module `VerifyRoute`).
  A missing or empty `authorization` header gets 401, with no verification
  attempted. Otherwise the token is the header minus its first six
  characters, with leading whitespace trimmed. The scheme is never checked
  to be `Bearer`. The verifier (`TokenVerifier.verify`) is the parameter
  `verify`; `None` from it stands for a thrown error, which becomes a 401.

On an email present in both accounts, the rocketdevs record's name,
headline and phone are kept and only `source` is rewritten
(interview-backend/breezy_airtable.py:244-245).

`options.dfy` holds the `Option` type used for Python's `None` and
JavaScript's `null`/`undefined`.

## Model

| member | source | states |
|---|---|---|
| `BreezyAirtable.Candidate.ToAirtable` | interview-backend/breezy_airtable.py:103-110 | name, email, headline and phone are copied from the candidate; `source` is the given tag |
| `BreezyAirtable.Flatten` | interview-backend/breezy_airtable.py:205 | an element is in the flattened sequence iff it is in one of the lists |
| `BreezyAirtable.FlattenAppend` | interview-backend/breezy_airtable.py:205 | flattening distributes over concatenation of the outer sequence |
| `BreezyAirtable.FlattenAt` | interview-backend/breezy_airtable.py:205 | the j-th element of list i sits right after all elements of lists 0..i-1: order is list order, then element order |
| `BreezyAirtable.FlattenFlatten` | interview-backend/breezy_airtable.py:196-205 | flattening the pair-level lists equals flattening each company's group first |
| `BreezyAirtable.ListsByCompany` | interview-backend/breezy_airtable.py:193-204 | one group per company paired by `zip` (the shorter length), group k has one list per position of company k, listed with that company's and position's ids |
| `BreezyAirtable.FetchCandidates` | interview-backend/breezy_airtable.py:189-205 | a candidate is returned iff some listed (company, position) pair lists it |
| `BreezyAirtable.FetchCandidatesOrder` | interview-backend/breezy_airtable.py:196-205 | the result is company order, then position order, then listing order |
| `BreezyAirtable.LastIndex` | interview-backend/breezy_airtable.py:240-242 | the index carries the email and no later candidate does |
| `BreezyAirtable.FirstIndex` | interview-backend/breezy_airtable.py:243-247 | the index carries the email and no earlier candidate does |
| `BreezyAirtable.Occurrences` | interview-backend/breezy_airtable.py:243-247 | the count is positive iff the email is among the list's emails, and at most the list's length |
| `BreezyAirtable.OccursTwice` | interview-backend/breezy_airtable.py:243-247 | the count exceeds one iff two different positions carry the email |
| `BreezyAirtable.IndexByEmail` | interview-backend/breezy_airtable.py:240-242 | the dictionary comprehension has exactly the list's emails as keys, each mapped to the record of the last candidate with that email |
| `BreezyAirtable.MergeCollision` | interview-backend/breezy_airtable.py:244-245 | re-tagging the stored record `Both` on a collision keeps the merge invariant one candidate further |
| `BreezyAirtable.MergeInsert` | interview-backend/breezy_airtable.py:246-247 | inserting a `HiveMinds` record for a new email keeps the merge invariant one candidate further |
| `BreezyAirtable.MergeCandidates` | interview-backend/breezy_airtable.py:240-247 | the result is the merge: keys are the union of both lists' emails; rocketdevs emails keep their last record, tagged `Both` iff also in hiveminds; hiveminds-only emails keep their first record, tagged `Both` iff they occur twice; `Both` iff the email is in hiveminds and occurs twice over both lists |
| `Agent.Bump` | interview-backend/agent.py:47 | a join adds one to its identity's count and leaves every other identity's count alone |
| `Agent.Admissions` | interview-backend/agent.py:47-50 | one admission verdict per join |
| `Agent.TallyCount` | interview-backend/agent.py:47 | after a run of joins an identity's count is its count before plus its joins in the run, so counts never decrease |
| `Agent.AdmissionAt` | interview-backend/agent.py:47-50 | the k-th join is admitted iff its identity's count before the run plus its joins up to and including this one is at most `MaxLimit` |
| `Agent.FreshProcessAdmissions` | interview-backend/agent.py:27-50 | in a fresh process joins 1-3 of an identity are admitted and the 4th and later rejected |
| `Agent.CandidateTracker.constructor` | interview-backend/agent.py:27 | the tracker starts empty |
| `Agent.CandidateTracker.Increment` | interview-backend/agent.py:47 | returns the identity's new count, one more than before, and updates only that identity |
| `Agent.ShutdownTask.constructor` | interview-backend/agent.py:61 | a new task has the given delay and is neither finished nor cancelled |
| `Agent.ShutdownTask.Cancel` | interview-backend/agent.py:156 | cancelling marks a task that has not finished as cancelled and reports whether it did; a finished task is left alone |
| `Agent.RecordingPrefix` | interview-backend/agent.py:133 | the prefix starts with the room and `/`, ends with `/`, and the token is exactly what lies between |
| `Agent.StartStepsCount` | interview-backend/agent.py:55-63 | the admitted-path steps start the agent, arm the shutdown and update tracking once each, and neither record nor shut down |
| `Agent.ShutdownStepsCount` | interview-backend/agent.py:145-152 | the shutdown steps shut the room down once and do nothing else counted |
| `Agent.SessionStepCount` | interview-backend/agent.py:46-63 | a rejected session shuts down once and never records, starts the agent, arms the shutdown or updates tracking; an admitted one never shuts down itself, does each of those once, and records once iff the name is not `TEST` |
| `Agent.AdmittedOrder` | interview-backend/agent.py:52-63 | an admitted session's trace ends with agent built, started, first reply, shutdown armed (600 s), callback registered, tracking updated, in that order, preceded by the recording when there is one |
| `Agent.AgentSessionManager.constructor` | interview-backend/agent.py:32-35 | a new session has no shutdown task and an empty trace |
| `Agent.AgentSessionManager.Init` | interview-backend/agent.py:42-63 | the join is counted on the shared tracker; the trace is `SessionSteps` for the new count; a shutdown task is armed iff the count is at most `MaxLimit`, fresh, with delay 600, not finished |
| `Agent.AgentSessionManager.StartAdmitted` | interview-backend/agent.py:52-63 | appends the recording step (unless `TEST`) and the start steps to the trace and arms a fresh 600-second task |
| `Agent.AgentSessionManager.SetupRecording` | interview-backend/agent.py:124-143 | appends one egress request for the room with the `room/token/` prefix |
| `Agent.AgentSessionManager.Shutdown` | interview-backend/agent.py:145-152 | appends the room shutdown with reason "Timeout reached" and the room deletion |
| `Agent.AgentSessionManager.UpdateAirtable` | interview-backend/agent.py:65-69 | appends the tracking update setting the email's status to "assessment completed" |
| `Agent.AgentSessionManager.CancelShutdownTask` | interview-backend/agent.py:154-156 | no effect when no task is armed or it has finished; otherwise the task is marked cancelled |
| `GrantJwt.ReplaceAll` | interview-frontend/app/api/grant-jwt/route.ts:50 | same length; every `from` character becomes `to`, every other character is kept |
| `GrantJwt.RoomName` | interview-frontend/app/api/grant-jwt/route.ts:50 | starts with `voice_assistant_room_`, contains no `@`, is `..._undefined` without an email, and otherwise is the email character by character with `@` turned into `-` |
| `GrantJwt.RoomNameMergesAtAndDash` | interview-frontend/app/api/grant-jwt/route.ts:50 | emails differing only by `@` versus `-` get the same room |
| `GrantJwt.OrUndefined` | interview-frontend/app/api/grant-jwt/route.ts:52 | a value is kept iff it is present and not empty, otherwise `undefined` |
| `GrantJwt.ParticipantToken` | interview-frontend/app/api/grant-jwt/route.ts:22-37 | the token carries the keys, identity and name given, a `7d` lifetime, and one grant of the given room with join, publish, publish-data and subscribe all true |
| `GrantJwt.Get` | interview-frontend/app/api/grant-jwt/route.ts:41-56 | a token is made iff the header is present and equals the configured secret; otherwise 401 `Unauthorized` with no token; a made token grants exactly the derived room with all four flags, identity and name follow the empty-or-missing rule, and the response is 200 with its signature, or none at all when signing throws |
| `GrantJwt.GrantedRoomIsIdentityRoom` | interview-frontend/app/api/grant-jwt/route.ts:50-53 | a token with an identity grants exactly that identity's room |
| `VerifyRoute.TrimStart` | interview-frontend/app/api/verify/route.ts:28 | the result is a suffix, everything removed is whitespace, and the result does not start with whitespace |
| `VerifyRoute.TrimStartPadded` | interview-frontend/app/api/verify/route.ts:28 | whitespace padding in front of a token that does not start with whitespace is removed exactly |
| `VerifyRoute.DropScheme` | interview-frontend/app/api/verify/route.ts:28 | the header minus its first six characters, empty when it is no longer than six |
| `VerifyRoute.ExtractToken` | interview-frontend/app/api/verify/route.ts:28 | the token is the header minus six characters, trimmed of exactly its leading whitespace |
| `VerifyRoute.BearerToken` | interview-frontend/app/api/verify/route.ts:28 | `Bearer <token>` yields the token |
| `VerifyRoute.SchemeIgnored` | interview-frontend/app/api/verify/route.ts:28 | any six characters in place of `Bearer` yield the same token |
| `VerifyRoute.Get` | interview-frontend/app/api/verify/route.ts:21-36 | a missing or empty header is 401 with no verification attempt; otherwise the extracted token is verified, and the answer is 401 when verification fails and 200 with exactly the returned claims when it succeeds |

## Left out

- Network and SDK calls are not modelled: Breezy sign-in and listing, the Airtable `batch_upsert`, `first` and `update`, LiveKit egress, room deletion, `ctx.connect` and `wait_for_participant`. The model takes their results as parameters or records them as trace events, and every call is assumed to succeed. A failing call propagates an exception in the source; that path is not modelled.
- The upsert of the merged records into Airtable is external storage and is not modelled. `MergeCandidates` ends with the map that would be sent.
- Pydantic parsing and validation are not modelled: records are assumed well formed. `ToAirtable` takes the tag as the three-valued `Source` type, since the source only ever passes `"rocketdevs"` or `"hiveminds"`.
- The diagnostic `print` in `sync_it` and the `logger.info` calls in `agent.py` (lines 43, 60, 67, 72 and 142) are logging only and are not modelled.
- The concurrency of `asyncio.gather` is not modelled: `FetchCandidates` states only the order of the result, which `gather` preserves.
- The realtime model's instructions, chat script, voice and voice-activity thresholds are configuration for an external engine, partly floating point. `AgentBuilt` carries none of them.
- The S3 settings of the egress request come from the environment and are not modelled.
- The 600-second sleep, and the race between the timer firing and its cancellation, are timing and concurrency. The model keeps only the guard in `cancel_shutdown_task`. `ShutdownTask.Finish` stands for the event loop completing the task. The shutdown that the armed task eventually performs is not appended to the trace.
- `uuid4()` is randomness, so the token is a parameter of `Init`.
- JWT signing and verification are cryptography in a foreign library, so they are the parameters `sign` and `verify`. The library's exceptions are modelled as `None` from either. When the library throws is not modelled: livekit-server-sdk is not part of this model. It refuses a join grant without an identity, which is the missing-or-empty-email case, and a missing API key or secret; `GrantJwt.Get` leaves `sign` free to succeed or fail on any token.
- JavaScript strings are UTF-16. The model works on Unicode scalar values, so `substring(6)` is not modelled for headers with characters outside the Basic Multilingual Plane in their first six positions.
- Environment loading (`app_settings.py`) and the React pages (`page.tsx`, `layout.tsx`) are configuration and UI and are not part of this model.
