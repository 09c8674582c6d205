# Rockfall barrier: geometry, force aggregation, cable classification and users

This project is a Dafny model of the computational core of a rockfall-barrier
design tool, with proofs about it. A barrier is a row of supports (posts) on a
slope, tied back to ground anchors by cables. From a parameter record the tool
builds the 3D configuration:
- the supports `s1..sN`;
- the retention anchors `v1..v(N+1)`;
- six auxiliary anchors;
- every cable, each with the ids of its two ends and copies of their coordinates.

After engineers enter the force measured on the cables, the tool adds those
forces up at each anchor and support and computes two totals. Before forces
are entered, the analyzer page classifies the cables: those attached to an
anchor may carry a load cell and are offered for force entry, grouped by cable
type; the others lose their load cell. A small user table handles accounts:
- SHA-256 password digests;
- create, update, delete and login;
- bulk generation of credentials.

Modules:

- `Wrappers`: `Option`.
- `Decimal`: decimal rendering of naturals (the `f'v{i+1}'` ids) and its inverse. Distinct numbers give distinct ids. `Numbered(prefix, k)` is the id set `prefix1..prefixk`.
- `Sums`: order-free sums of reals over finite key sets, the value of Python's `sum` over a dictionary. Includes the exchange of a double sum.
- `Barrier`: the data model. It has points, supports, anchors and cables, the parameter record and the configuration `{supports, anchors, cables, params}`.
- `Geometry`: the builder, `calculate_3d_coordinates`.
  - Each loop of the source is a method, proved equal to a recursive specification function. For example, `BuildSupports` computes `SupportsUpTo(p, trig, N)`.
  - The whole builder is the method `Calculate3dCoordinates`, proved to return `Coordinates(p, trig)`.
  - `GeometryProperties` holds the lemmas about the built configuration: ids, counts, placement, wiring and dependence on the parameters.
- `Forces`: `calculate_forces`.
  - The method keeps the source's loops: zero-fill, the cable loop with its `if/elif` preference for the start, and the two `sum` generators.
  - It is proved equal to `ForcesOf`, which gives each node the sum, over all cables, of the force it receives.
  - `ForcesProperties` proves which keys the result has, which cables are ignored, and what each total adds up to.
- `Analyzer`: the classification loop of the analyzer page and the parameter-change handler.
  - The session state is the class `AnalyzerSession` with the field `config`. The loop mutates it in place.
  - `AnalyzerProperties` relates the loop to the builder and to the aggregator.
- `Auth`: the user table.
  - The operations are specification functions returning `(ok, message, new table)`.
  - The session's table is the class `UserStore`, whose methods reassign it. Each method is proved to agree with its function.
  - `AuthProperties` holds the round trips between the operations.

External inputs are parameters:
- `np.sin`, `np.cos` and `np.tan` are the fields of an uninterpreted `Trig` record. No property depends on their values.
- SHA-256 is an uninterpreted `hash: string -> string`.
- The formatted clock reading `now` is a parameter.
- The random draws of `uuid4().hex` and of `generate_password` are the functions `uuidHex(i)` and `password(i)`.

Python dictionaries are maps. Loops over `dict.items()` pick the next key with
`:|`. As a result, every result is proved for every iteration order.

## Model

| member | source | states |
|---|---|---|
| Geometry.DegToRad | modules/geometry.py:3-5 | 180 degrees is pi; the conversion keeps the sign and is zero only at zero |
| Geometry.DefaultParams | modules/geometry.py:7-26 | the default barrier has four supports, no intermediate cables and positive lengths |
| Geometry.TerrainHeight | modules/geometry.py:63-64 | the terrain is at height zero on the support line x = 0 |
| Geometry.SupportOf | modules/geometry.py:70-88 | one iteration of the support loop builds the support record `SupportAt(p, trig, i)` |
| Geometry.BuildSupports | modules/geometry.py:67-88 | the support loop yields the supports `s1..sN`, each at its index |
| Geometry.RetentionAnchor | modules/geometry.py:93-115 | one iteration of the anchor loop, with its three position cases, builds `RetentionAnchorAt(p, trig, i)` |
| Geometry.BuildRetentionAnchors | modules/geometry.py:90-115 | the anchor loop yields the anchors `v1..v(N+1)` |
| Geometry.BuildAnchors | modules/geometry.py:90-149 | the anchor dictionary is the retention anchors plus the six auxiliary anchors |
| Geometry.BuildNearRetentionCables | modules/geometry.py:151-179 | the first retention loop yields `rhs1..rhsN`, tying `sk` to `vk` |
| Geometry.FarRetentionCable | modules/geometry.py:181-209 | one iteration of the second retention loop builds `rhs(N+i+1)` |
| Geometry.BuildFarRetentionCables | modules/geometry.py:181-209 | the second retention loop yields `rhs(N+1)..rhs(2N)`, tying `sk` to `v(k+1)` |
| Geometry.AddSupportCables | modules/geometry.py:211-291 | the upper and lower support cables join the end supports to the `tso`/`tsu` anchors |
| Geometry.CatchingCableOf | modules/geometry.py:293-317 | one iteration of the catching loop builds `faSk` between the tops of `sk` and `s(k+1)` |
| Geometry.AddCatchingCables | modules/geometry.py:293-317 | the catching loop adds `faS1..faS(N-1)` |
| Geometry.AddLateralCables | modules/geometry.py:319-358 | the lateral bracing cables join the end supports to the `sa` anchors |
| Geometry.Calculate3dCoordinates | modules/geometry.py:28-377 | the builder returns exactly `Coordinates(p, trig)`, about which the lemmas below are proved |
| GeometryProperties.SupportCount | modules/geometry.py:67-88 | the supports are exactly `s1..sN`, N of them |
| GeometryProperties.SupportAtPlacement | modules/geometry.py:70-88 | support i stands at (0, i*d, 0), its top above the base line and its length L |
| GeometryProperties.RetentionAnchorAtPlacement | modules/geometry.py:90-115 | every retention anchor is at x = a/2, h above the terrain; the first is at y = -b, the last at y = total length + b, and the others level with support `s(i-1)` |
| GeometryProperties.AuxiliaryAnchorsPlacement | modules/geometry.py:117-149 | the six auxiliary anchors sit b beyond the end supports, at x = b, -b and 0, at the stated heights |
| GeometryProperties.AnchorCount | modules/geometry.py:90-149 | a barrier with N supports has N + 7 anchors |
| GeometryProperties.SupportsAnchorsDisjoint | modules/geometry.py:83-149 | no id names both a support and an anchor |
| GeometryProperties.CablesKeys | modules/geometry.py:151-358 | the cable ids are exactly `rhs1..rhs(2N)`, `faS1..faS(N-1)` and the six fixed support and lateral cables |
| GeometryProperties.CableCount | modules/geometry.py:151-358 | a barrier with N supports has 3N + 5 cables |
| GeometryProperties.RetentionCableLookup | modules/geometry.py:151-209 | `rhsj` is in the cable dictionary and is the j-th retention cable |
| GeometryProperties.CatchingCableLookup | modules/geometry.py:293-317 | `faSj` is in the cable dictionary and is the j-th catching cable |
| GeometryProperties.UpperCablesLookup | modules/geometry.py:211-250 | `tsoS1` and `tsoS4` join `s1` and `sN` to the two upper anchors, with their coordinates |
| GeometryProperties.LowerCablesLookup | modules/geometry.py:252-291 | `tsuS1` and `tsuS4` join `s1` and `sN` to the two lower anchors, with their coordinates |
| GeometryProperties.LateralCablesLookup | modules/geometry.py:319-358 | `sa1` and `sa2` join `s1` and `sN` to the two lateral anchors, with their coordinates |
| GeometryProperties.RetentionCableEnds | modules/geometry.py:151-209 | `rhsk` has type `rhs` and joins `sk` to `vk` for k <= N, and `s(k-N)` to `v(k-N+1)` beyond |
| GeometryProperties.CatchingCableEnds | modules/geometry.py:293-317 | `faSk` has type `zw` and joins `sk` to `s(k+1)` |
| GeometryProperties.SupportRetainedByConsecutiveAnchors | modules/geometry.py:151-209 | the retention cables of support `si` end exactly at anchors `vi` and `v(i+1)` |
| GeometryProperties.RetentionIndex | modules/geometry.py:151-209 | every cable of type `rhs` is `rhsj` for some j in 1..2N |
| GeometryProperties.CableWired | modules/geometry.py:151-358 | every built cable starts at a support, ends at an anchor, or at a support for `zw`, carries copies of its ends' coordinates, force 0.0 and a load cell |
| GeometryProperties.CablesWired | modules/geometry.py:151-358 | the same, for all cables at once |
| GeometryProperties.CoordinatesDependOnlyOnGeometry | modules/geometry.py:33-65 | supports, anchors and cables depend only on N, a, b, d, h, L, epsilon and phi; f, theta, delta, delta1, delta2 and tau are not used |
| GeometryProperties.DefaultBarrier | modules/geometry.py:7-26 | the default parameters build 4 supports, 11 anchors and 17 cables |
| Forces.ZeroFill | modules/forces.py:10-16 | every anchor and support is reset to 0.0 and nothing else changes |
| Forces.AddCable | modules/forces.py:19-38 | a counted cable adds its force to its anchor end and to its support end, the start preferred; any other cable adds nothing |
| Forces.AccumulateCables | modules/forces.py:19-38 | after the cable loop each node holds what it receives from all cables, in any iteration order |
| Forces.SumOver | modules/forces.py:40-42 | the generator sums are the set sums of the looked-up values |
| Forces.CalculateForces | modules/forces.py:1-44 | the aggregator returns exactly `ForcesOf(config)` |
| ForcesProperties.ForcesKeys | modules/forces.py:10-42 | the result has one entry per anchor and per support, and the two totals |
| ForcesProperties.InertCableIgnored | modules/forces.py:20-38 | removing a cable without load cell, with zero force or with no anchor or support end leaves the result unchanged |
| ForcesProperties.NoCountedCableNoForce | modules/forces.py:20-42 | with no counted cable every entry of the result is 0.0 |
| ForcesProperties.AnchorBucketsSum | modules/forces.py:28-32 | the buckets of a set of anchors add up to the forces of the counted cables aimed into it |
| ForcesProperties.SupportBucketsSum | modules/forces.py:34-38 | the buckets of a set of supports add up to the forces of the counted cables aimed into it |
| ForcesProperties.TotalAnchorForce | modules/forces.py:41 | the anchor total is the force of the counted cables that load an anchor whose id starts with `v` |
| ForcesProperties.TotalSupportForce | modules/forces.py:34-42 | on a connected configuration the support total is the force of all counted cables |
| ForcesProperties.SingleCountedCable | modules/forces.py:19-42 | one counted cable from a support to an anchor puts its force on both ends and on the support total, and on the anchor total for a `v` anchor |
| Analyzer.AnalyzerSession.ClassifyCable | routes/analyzer.py:354-375 | one iteration classifies cable `id` and appends it to its group when it is offered |
| Analyzer.AnalyzerSession.GroupCables | routes/analyzer.py:344-375 | the loop classifies every cable once; the six groups list, without repetition, exactly the anchor-connected cables of their type |
| Analyzer.AnalyzerSession.HandleParameterChange | routes/analyzer.py:30-37 | after an edit the configuration is the fresh build of the updated parameters |
| AnalyzerProperties.ClassifyKeepsTopology | routes/analyzer.py:354-375 | classification adds and removes no cable and changes nothing but the two load-cell flags |
| AnalyzerProperties.ClassifiedFlags | routes/analyzer.py:364-375 | an anchor-connected cable may carry a load cell and keeps its flag; any other loses its load cell |
| AnalyzerProperties.ClassifyIdempotent | routes/analyzer.py:354-375 | classifying twice is classifying once |
| AnalyzerProperties.UnanchoredCableCarriesNoForce | routes/analyzer.py:370-375 | after classification a cable without an anchor end contributes nothing to the aggregated forces |
| AnalyzerProperties.BuiltBarrierConnected | modules/geometry.py:151-358 | a built barrier is connected: cables start at supports and no id is both support and anchor |
| AnalyzerProperties.ClassifyKeepsConnected | routes/analyzer.py:354-375 | classification keeps a configuration connected |
| AnalyzerProperties.BuiltCableAnchoredIffNotCatching | modules/geometry.py:151-358 | a built cable has an anchor end if and only if it is not a catching cable |
| AnalyzerProperties.OfferedOnBuiltBarrier | routes/analyzer.py:344-368 | on a built barrier the page offers exactly the non-catching cables, each under its own type |
| AnalyzerProperties.CatchingCableExcluded | routes/analyzer.py:370-375 | after classification no catching cable `faSk` is counted by the aggregator |
| AnalyzerProperties.FreshBarrierHasNoForces | modules/geometry.py:151-358 | a fresh build has force 0.0 and a load cell on every cable, and every aggregated force is 0.0 |
| AnalyzerProperties.ParameterChangeResetsForces | routes/analyzer.py:34-37 | after a parameter edit all entered forces are gone |
| AnalyzerProperties.ClassifiedBarrierSupportTotal | modules/forces.py:34-42 | on a classified barrier with built topology the support total is the sum of the counted forces |
| AuthProperties.CheckPasswordRoundTrip | modules/auth.py:10-16 | a password always matches its own digest |
| AuthProperties.CheckPasswordExact | modules/auth.py:10-16 | with a collision-free hash only the original password matches |
| Auth.Create | modules/auth.py:43-57 | succeeds exactly for a new name; adds that one record with the hashed password, role (`user` by default), name, email, creation time and no login; leaves the other users alone |
| Auth.Update | modules/auth.py:59-71 | succeeds exactly for a known name; changes only that user's record |
| Auth.Delete | modules/auth.py:73-83 | succeeds exactly for a known name other than `admin`; removes only that user |
| Auth.Authenticate | modules/auth.py:85-97 | succeeds exactly when the stored digest is the password's; on success only the user's `last_login` changes; on failure nothing changes |
| Auth.UserStore.CreateUser | modules/auth.py:43-57 | the stored table and the returned pair are those of `Create` |
| Auth.UserStore.UpdateUser | modules/auth.py:59-71 | the keyword loop leaves the table and the returned pair of `Update` |
| Auth.UserStore.DeleteUser | modules/auth.py:73-83 | the stored table and the returned pair are those of `Delete` |
| Auth.UserStore.AuthenticateUser | modules/auth.py:85-97 | the stored table and the returned pair are those of `Authenticate` |
| Auth.GenerateCredentials | modules/auth.py:103-110 | n pairs (n is 5 by default; none for n <= 0), the i-th of which is `user_` and six hex digits of the i-th UUID with the i-th password |
| AuthProperties.UpdateFieldsKeeps | modules/auth.py:64-68 | a field no keyword names keeps its value |
| AuthProperties.UpdateFieldsGrows | modules/auth.py:64-68 | an update never removes a field |
| AuthProperties.UpdateFieldsAt | modules/auth.py:64-68 | a keyword with a truthy stored value is written; one with a falsy value leaves the field as it was |
| AuthProperties.PasswordStoredHashed | modules/auth.py:65-68 | a non-empty new password is stored as its digest |
| AuthProperties.EmptyPasswordKeepsHash | modules/auth.py:65-68 | an empty new password keeps the old digest |
| AuthProperties.PasswordNeverRaw | modules/auth.py:64-68 | the stored password after an update is the old one or some digest |
| AuthProperties.UpdateKeepsPasswords | modules/auth.py:59-71 | updates keep every user's password field |
| AuthProperties.CreateDefaultsToUserRole | modules/auth.py:43-50 | without a role argument a new user gets the role `user` |
| AuthProperties.DeleteUndoesCreate | modules/auth.py:43-83 | deleting a just-created user (other than `admin`) restores the table |
| AuthProperties.CreateThenAuthenticate | modules/auth.py:43-97 | a new user can log in with the given password and, with a collision-free hash, with no other |
| AuthProperties.UpdatePasswordThenAuthenticate | modules/auth.py:59-97 | after a password change the new password logs in |
| AuthProperties.FailedLoginChangesNothing | modules/auth.py:85-97 | a failed login leaves the table unchanged |

## Left out

- The parameter interdependency solver (`apply_parameter_changes` and the validators) is not part of this model. `HandleParameterChange` receives its updated parameters as input, and the changed-parameter list, validation result and warnings it returns are not modelled.
- Saving and loading (`save_barrier_config`, `save_users`, `load_users`, including the default `admin` account that `load_users` creates) are file I/O and are not modelled.
- The values of `np.sin`, `np.cos`, `np.tan` and of SHA-256 are not modelled: they are uninterpreted parameters. Floating-point rounding is not modelled: coordinates and forces are reals.
- `datetime.now()`, `uuid.uuid4()` and `os.urandom` with base64 are parameters: `now`, `uuidHex(i)` and `password(i)`.
- The Streamlit pages, translations, the visualization, `modules/data.py` and the column layout of the force inputs are not part of this model.
- Analyzer.AnalyzerSession.GroupCables: the groups hold cable ids rather than `(id, cable)` pairs aliasing the live dictionaries, and their order (dictionary insertion order) is not modelled, only their contents and the absence of repetition.
- Forces.CalculateForces: the cable record always has `force`, `start` and `end`, so the `.get` defaults for them are not modelled. `has_load_cell` is `None`, `Some(false)` or `Some(true)`, and only `Some(true)` counts. Integer forces and other truthy flag values are not modelled.
- Geometry.Calculate3dCoordinates requires `num_supports >= 1`. With 0 supports the source raises `KeyError` on `s1` when building the upper support cables; that error path is not modelled.
- AuthProperties.UpdateFieldsAt: keyword names are assumed distinct, as Python keyword arguments are. The same holds for the lemmas built on it.
- Auth.Update: field values are strings or `None`; other value types are not modelled.
- Auth.Authenticate requires a known user's record to have a `password` field. For a record without one the source raises `KeyError` when it reads the stored password; that error path is not modelled. Every operation of the model keeps a `password` field in every record (`AllHavePasswords`), so only a table loaded from an edited file can lack one.
- Auth.GenerateCredentials requires every UUID hex string to have 32 characters, as `uuid4().hex` does.

Facts about the built barrier that the lemmas above establish:
- A barrier with N supports has 3N + 5 cables (GeometryProperties.CableCount): 2N retention cables, N - 1 catching cables, and six support and lateral cables.
- It has N + 7 anchors (GeometryProperties.AnchorCount), six of them auxiliary.
- The retention anchors stand at y = -b, then level with supports `s1..s(N-1)`, then at the barrier length + b (GeometryProperties.RetentionAnchorAtPlacement).
- The default parameters have a = 8, b = 2 and h = 2 (Geometry.DefaultParams).
- Every built cable, catching cables included, has a load cell (GeometryProperties.CablesWired). Only the analyzer's classification removes it.
- A single support is accepted by the builder.
