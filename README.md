# universal-analytics-python3, modelled in Dafny

A model of the two sequential cores of the Universal Analytics Measurement
Protocol client, with proofs about them.

- **The tracker** (`universal_analytics/tracker.py`).
  - The alias table maps human-friendly parameter names and the wire codes
    themselves to a `(typecast, wire code)` pair.
  - `coerceParameter` resolves a name in one of three ways: a `&` raw
    override, a table lookup, or `KeyError`.
  - The session-parameter operations are `set`, `tracker[name]`,
    `tracker[name] = v` and `del tracker[name]`.
  - `send` assembles one hit in this order:
    1. check the hit type;
    2. set the queue time from `hittime`/`hitage`;
    3. fill the positional option slots;
    4. merge dict arguments;
    5. fill absent keys from session state (the class `Tracker` uses the
       corrected fill of "## Findings", which skips a session pair when the
       call names its wire code through any alias; `Hit` keeps the fill as
       written);
    6. apply the final resolve-and-drop pass;
    7. optionally hash the client id;

    and then hands the hit to the transport.
- **The transport** (`universal_analytics/requests.py`).
  - `encode_payload` is modelled, together with the single-hit request and
    the batching request.
  - The batch buffer holds fewer than `max_batch_size` (20) hits between
    calls. When it reaches 20 it is posted as one body and emptied, and
    `close` flushes what is left.
  - The HTTP session is a log of `(endpoint, body)` posts plus a closed flag.

Files:

- `python.dfy` (module `Python`) holds what the model needs from the Python runtime:
  - the values callers pass and the exceptions raised;
  - insertion-ordered dicts as association lists. Assigning an existing key keeps its position, and a new key goes last;
  - the library functions the model does not interpret (`str`, `int`, `float`, the MD5-derived uuid), gathered in a `Builtins` record. `Pythonic(py)` states the few facts about them that the proofs use.
- `aliases.dfy` (module `Aliases`) holds:
  - the alias table and `Tracker.alias`, as the class `AliasRegistry`;
  - the explicit declarations of `tracker.py:254-412`, given as data and run by a loop;
  - the generated families (custom dimensions and metrics, Enhanced Ecommerce keys) of `tracker.py:415-490`, given as a membership function that parses the index out of the name;
  - `coerceParameter`.
- `requests.dfy` (module `Requests`) holds the payload encoding, the session log, the request class, and the batching laws.
- `tracker.py`'s remaining operations are in `tracker.dfy` (module `Tracking`):
  - each stage of `send`, as a specification function plus the loop that implements it;
  - the session-state functions;
  - the class `Tracker`.

## Model

| member | source | states |
|---|---|---|
| Aliases.Coerce | universal_analytics/tracker.py:240-245 | int succeeds exactly when `int(value)` does and gives that int, otherwise raises its error; float likewise with `float(value)`; str and safe_unicode give `str(value)` |
| Aliases.RegisteredAt | universal_analytics/tracker.py:197-199 | after `alias(typemap, base, *names)`, the base and every listed name map to `(typemap, base)`; no other key changes |
| Aliases.AliasRegistry.Alias | universal_analytics/tracker.py:192-199 | the table becomes the old table with the base and then each name (re)assigned to `(typemap, base)`, in order |
| Aliases.AliasesResolveAlike | universal_analytics/tracker.py:197-199 | after `alias`, every listed name and the base resolve to `(base, typecast(value))` whatever was registered before, so re-registration overwrites |
| Aliases.DeclaredLast | universal_analytics/tracker.py:197-199 | after a run of declarations, a key holds the entry of the last declaration that mentions it |
| Aliases.DeclaredUntouched | universal_analytics/tracker.py:197-199 | a key that no declaration mentions keeps its entry, or stays absent |
| Aliases.DeclareAll | universal_analytics/tracker.py:254-412 | running the declarations in order leaves the table that `Declared` describes |
| Aliases.DeclareStandardAliases | universal_analytics/tracker.py:254-412 | the import-time declarations, one `alias` call per line of the module |
| Aliases.DeclaredAppend | universal_analytics/tracker.py:254-412 | running two lists of declarations one after the other is running their concatenation |
| Aliases.SilentAppend | universal_analytics/tracker.py:254-412 | two lists of declarations that both leave a key alone leave it alone together |
| Aliases.DeclaredSilentSuffix | universal_analytics/tracker.py:197-199 | declarations that do not mention a key leave its entry as the earlier ones made it |
| Aliases.LaterDeclsSilent | universal_analytics/tracker.py:276-412 | no declaration after the first group registers v, cid, tid, dp or t |
| Aliases.LaterKeepsHitCode | universal_analytics/tracker.py:276-412 | a key the later groups leave alone ends with the entry the first group gave it |
| Aliases.ProtocolCodeDeclared | universal_analytics/tracker.py:254-274 | a hit code declared last at position i of the first group ends registered to itself with that declaration's typecast |
| Aliases.StandardVersionCode | universal_analytics/tracker.py:254 | after the declarations, `v` is registered to itself, int |
| Aliases.StandardClientIdCode | universal_analytics/tracker.py:255 | after the declarations, `cid` is registered to itself, safe_unicode |
| Aliases.StandardTrackingIdCode | universal_analytics/tracker.py:256 | after the declarations, `tid` is registered to itself, safe_unicode |
| Aliases.StandardPageCode | universal_analytics/tracker.py:261 | after the declarations, `dp` is registered to itself, safe_unicode |
| Aliases.StandardPageAlias | universal_analytics/tracker.py:261 | after the declarations, `page` is registered as an alias of `dp`, safe_unicode |
| Aliases.StandardHitTypeCode | universal_analytics/tracker.py:273 | after the declarations, `t` is registered to itself, safe_unicode |
| Aliases.Dec | universal_analytics/tracker.py:416 | `str(i)` of a natural number is a non-empty digit string with no leading zero |
| Aliases.DigitsValueOfDec | universal_analytics/tracker.py:416 | the digits of `str(i)` read back as `i` |
| Aliases.LeadingIndexOfDec | universal_analytics/tracker.py:416 | reading `str(i)` back from the front of a name gives `i` and the rest of the name |
| Aliases.ExactIndexOfDec | universal_analytics/tracker.py:415-417 | `prefix + str(i)` with `lo <= i < hi` is recognised, with index `i` |
| Aliases.IndexAfterOfDec | universal_analytics/tracker.py:428-430 | `prefix + str(i) + rest` with `i` in range splits into `i` and `rest` |
| Aliases.IndexAfterOutOfRange | universal_analytics/tracker.py:428 | an index outside the range of the generating loop is not recognised |
| Aliases.ExactIndexOutOfRange | universal_analytics/tracker.py:415 | `prefix + str(i)` with `i` outside the range of the generating loop is not recognised |
| Aliases.CustomDimensionsRegistered | universal_analytics/tracker.py:415-416 | for every `i < 200`, `dimension<i>` and `cd<i>` are registered as safe_unicode parameters `cd<i>` |
| Aliases.CustomMetricsRegistered | universal_analytics/tracker.py:415-417 | for every `i < 200`, `metric<i>` and `cm<i>` are registered as int parameters `cm<i>` |
| Aliases.CustomDimensionBound | universal_analytics/tracker.py:415 | `dimension<i>` and `cd<i>` for `i >= 200` are unknown |
| Aliases.CustomMetricBound | universal_analytics/tracker.py:415 | `metric<i>` and `cm<i>` for `i >= 200` are unknown |
| Aliases.DimensionRegistered | universal_analytics/tracker.py:415-416 | `dimension<i>`, `i < 200`, is registered as the safe_unicode parameter `cd<i>` |
| Aliases.CdRegistered | universal_analytics/tracker.py:415-416 | `cd<i>`, `i < 200`, is registered as itself, safe_unicode |
| Aliases.MetricRegistered | universal_analytics/tracker.py:415-417 | `metric<i>`, `i < 200`, is registered as the int parameter `cm<i>` |
| Aliases.CmRegistered | universal_analytics/tracker.py:415-417 | `cm<i>`, `i < 200`, is registered as itself, int |
| Aliases.DimensionUnknown | universal_analytics/tracker.py:415 | `dimension<i>` for `i >= 200` is unknown |
| Aliases.ShortCustomUnknown | universal_analytics/tracker.py:415 | `cd<i>` and `cm<i>` for `i >= 200` are unknown |
| Aliases.MetricUnknown | universal_analytics/tracker.py:415 | `metric<i>` for `i >= 200` is unknown |
| Aliases.EcommerceSinglesRegistered | universal_analytics/tracker.py:420-426 | pa, tcc, pal, col and promoa (str) and cos (int) are registered as their own codes |
| Aliases.ProductFieldRegistered | universal_analytics/tracker.py:428-446 | `pr<p><field>` is registered for every product `1 <= p <= 10` and each of the nine fields, with that field's typecast |
| Aliases.ProductCustomRegistered | universal_analytics/tracker.py:448-452 | `pr<p>cd<c>` (str) and `pr<p>cm<c>` (int) are registered for every product and every `c < 200` |
| Aliases.ProductIndexBound | universal_analytics/tracker.py:428 | `pr<p>` followed by anything not starting with a digit is unknown for product 0 and products above 10 |
| Aliases.ListIndexBound | universal_analytics/tracker.py:478 | `il<l>` followed by anything not starting with a digit is unknown for list 0 and lists above 10 |
| Aliases.ImpressionIndexBound | universal_analytics/tracker.py:428-455 | under a list, `pi<p>` followed by anything not starting with a digit is unknown for product 0 and products above 10 |
| Aliases.LeadingZeroUnknown | universal_analytics/tracker.py:415-417 | an index written with a leading zero is not recognised, since `str(i)` never has one |
| Aliases.ProductZeroUnknown | universal_analytics/tracker.py:428 | `pr0cd5` is unknown |
| Aliases.ListElevenUnknown | universal_analytics/tracker.py:478 | `il11nm` is unknown |
| Aliases.LeadingZeroField | universal_analytics/tracker.py:470-476 | `cd05` is no impression field |
| Aliases.ImpressionLeadingZeroUnknown | universal_analytics/tracker.py:470-476 | `il1pi1cd05` is unknown |
| Aliases.DigitsPositive | universal_analytics/tracker.py:416 | a digit string without a leading zero reads as a positive number |
| Aliases.DecOfDigits | universal_analytics/tracker.py:416 | a digit string without a leading zero is `str` of its value, the converse of DigitsValueOfDec |
| Aliases.LeadingIndexShape | universal_analytics/tracker.py:416 | an index read from the front of a name is `str(i)` followed by a rest that does not start with a digit |
| Aliases.IndexAfterShape | universal_analytics/tracker.py:428-430 | a recognised `prefix`-index-rest name is `prefix + str(i) + rest` with `i` in range |
| Aliases.ExactIndexShape | universal_analytics/tracker.py:415-417 | a recognised `prefix`-index name is `prefix + str(i)` with `i` in range |
| Aliases.CustomDefinitionShape | universal_analytics/tracker.py:415-417 | a custom definition name is `dimension<i>`, `metric<i>`, `cd<i>` or `cm<i>` with `i < 200` |
| Aliases.CustomFieldShape | universal_analytics/tracker.py:448-452 | a custom product or impression field is `cd<c>` or `cm<c>` with `c < 200` |
| Aliases.ListKeyShape | universal_analytics/tracker.py:454-476 | a list key other than `nm` is `pi<p><field>` with `1 <= p <= 10` and an impression field or a custom field |
| Aliases.EcommerceKeyShape | universal_analytics/tracker.py:419-490 | an Enhanced Ecommerce key is a single, or a promotion, product, list-name or impression name with every index in its loop's range |
| Aliases.FamilyNameGenerated | universal_analytics/tracker.py:415-490 | every family name is one the generating loops produce, with its indices in range |
| Aliases.CustomDefinitionNameRegistered | universal_analytics/tracker.py:415-417 | every generated custom definition name is registered |
| Aliases.ProductNameRegistered | universal_analytics/tracker.py:428-452 | every generated product name is registered |
| Aliases.ImpressionNameRegistered | universal_analytics/tracker.py:454-476 | every generated impression name is registered |
| Aliases.GeneratedNameRegistered | universal_analytics/tracker.py:415-490 | every name the generating loops produce is registered |
| Aliases.FamilyExactlyGenerated | universal_analytics/tracker.py:415-490 | a name is a family name exactly when the generating loops produce it |
| Aliases.ImpressionFieldRegistered | universal_analytics/tracker.py:454-468 | `il<l>pi<p><field>` is registered for every list, product and impression field, with that field's typecast |
| Aliases.ImpressionCustomRegistered | universal_analytics/tracker.py:470-476 | `il<l>pi<p>cd<c>` (str) and `il<l>pi<p>cm<c>` (int) are registered for every `c < 200` |
| Aliases.ListNameRegistered | universal_analytics/tracker.py:478-480 | `il<l>nm` is registered as a str parameter for every list `1 <= l <= 10` |
| Aliases.PromotionFieldRegistered | universal_analytics/tracker.py:482-490 | `promo<k>id/nm/cr/ps` are registered as str parameters for every promotion `1 <= k <= 10` |
| Aliases.FamilyBaseRegistersItself | universal_analytics/tracker.py:415-490 | the wire code of every generated entry is itself registered, to the same entry |
| Aliases.NotEcommerceKey | universal_analytics/tracker.py:419-490 | a name with a digit that starts with neither `p` nor `i` is no Enhanced Ecommerce key |
| Aliases.CoerceParameter | universal_analytics/tracker.py:201-209 | a name that does not resolve makes coerceParameter fail with the same error; on success its code is the wire code of the name (a resolved name can still fail in its typecast, see RegisteredNameResolves) |
| Aliases.RawOverride | universal_analytics/tracker.py:203-204 | `&rest` resolves to `(rest, str(value))`, registered or not |
| Aliases.RegisteredNameResolves | universal_analytics/tracker.py:205-207 | a registered name resolves to `(base, typecast(value))` and raises what the typecast raises |
| Aliases.UnknownNameRaises | universal_analytics/tracker.py:203-209 | a name that is neither `&`-prefixed nor registered raises KeyError; the empty name raises IndexError at `name[0]` |
| Tracking.OptionSequenceWellFormed | universal_analytics/tracker.py:89-94 | no option sequence names a code twice or names `t` |
| Tracking.ConsumedSlots | universal_analytics/tracker.py:219-223 | slot j takes argument j exactly when it has the expected type, or else keeps its code's old value; later slots do not shift; codes of no slot are untouched |
| Tracking.ConsumeOptionsSpec | universal_analytics/tracker.py:211-223 | after consume_options, `t` is the hit type, each slot holds its own argument or its old value, and every other key is unchanged |
| Tracking.ConsumedSlot | universal_analytics/tracker.py:219-223 | one slot of the hit type's sequence holds its own argument when that has the expected type, or else its old value |
| Tracking.ConsumeOptions | universal_analytics/tracker.py:211-223 | the loop with the `opt_position` counter computes `ConsumedOptions` |
| Tracking.TimingDropsIntTime | universal_analytics/tracker.py:219-222 | for a timing hit, an int time passed positionally is dropped, because the `utt` slot expects str |
| Tracking.Hittime | universal_analytics/tracker.py:225-237 | the queue time is None or an int, and it agrees with the code as written wherever that code does not raise |
| Tracking.HittimeNumericTimestampRaises | universal_analytics/tracker.py:230-232 | as written, a numeric timestamp passed without milliseconds raises TypeError |
| Tracking.TimestampAgreesWithAge | universal_analytics/tracker.py:230-237 | a hit stamped `a` seconds ago gets the same queue time `int(a*1000)` as a Unix timestamp, as a datetime and as an age |
| Tracking.AgeInSeconds | universal_analytics/tracker.py:236-237 | an age of n whole seconds gives a queue time of `n*1000` |
| Tracking.TimestampedSpec | universal_analytics/tracker.py:135-142 | set_timestamp removes hittime and hitage; `qt` comes from hitage when it is given, else from hittime, else is unchanged; no other key changes |
| Tracking.HitageQueueTime | universal_analytics/tracker.py:236-237 | `hitage=n` in whole seconds makes `qt` equal to `n*1000` |
| Tracking.SetTimestamp | universal_analytics/tracker.py:135-142 | the pops and assignments on data compute `Timestamped` |
| Tracking.PayloadOutcome | universal_analytics/tracker.py:128-133 | payload never lets KeyError out; it fails exactly when some pair raises another error, and then with the error of the first such pair |
| Tracking.PayloadUntouched | universal_analytics/tracker.py:128-133 | a wire code that no pair resolves to keeps its previous value, so unresolvable keys leave no trace |
| Tracking.PayloadLastWriter | universal_analytics/tracker.py:128-133 | a wire code holds the coerced value of the last pair that resolves to it |
| Tracking.CoercedIsWire | universal_analytics/tracker.py:201-207 | every value coerceParameter returns is a str, int or float |
| Tracking.PayloadWireValues | universal_analytics/tracker.py:128-133 | every value payload writes is a str, int or float |
| Tracking.PayloadIdentity | universal_analytics/tracker.py:166 | a dict of distinct wire codes that resolve to themselves, holding values their typecasts keep, passes through the final payload pass unchanged |
| Tracking.PayloadPairs | universal_analytics/tracker.py:128-133 | the generator loop, consumed into a dict, computes `PayloadInto` and stops at the first escaping error |
| Tracking.MergedWithoutDicts | universal_analytics/tracker.py:155-159 | positional arguments that are not dicts contribute nothing to the merge |
| Tracking.MergedOutcome | universal_analytics/tracker.py:155-159 | merging dict arguments never raises KeyError |
| Tracking.MergeDictArgs | universal_analytics/tracker.py:155-159 | the dict-argument loop computes `Merged` |
| Tracking.FilledSpec | universal_analytics/tracker.py:161-164 | session parameters only fill absent keys: a call-time value is never overwritten and keeps its position |
| Tracking.FilledFresh | universal_analytics/tracker.py:161-164 | session keys absent from the data are appended after it, in session order |
| Tracking.FillFromSession | universal_analytics/tracker.py:161-164 | the session-fill loop as written computes `Filled` |
| Tracking.FilledTail | universal_analytics/tracker.py:161-164 | the fill keeps the call's data as its prefix and appends only session pairs under keys the data lacks |
| Tracking.CallTimeCodeKept | universal_analytics/tracker.py:161-166 | as written, a call-time key that is its own wire code keeps the call's value in the payload, provided no session key other than that code resolves to it |
| Tracking.HitKeepsCallTimeCode | universal_analytics/tracker.py:144-172 | the same for the whole of send as written, for every code but a hashed `cid` |
| Tracking.SessionOverridesCallTime | universal_analytics/tracker.py:161-166 | as written, with `dp="/y"` in the session, `send("pageview", page="/x")` sends `dp=/y`: the session beats call-time data given through an alias |
| Tracking.StandardSessionOverridesCallTime | universal_analytics/tracker.py:161-166 | the same through the table the module's declarations build |
| Tracking.Uncalled | universal_analytics/tracker.py:161-164 | the corrected fill keeps exactly the session pairs whose wire code no call-time key resolves to: every kept pair is such a pair, and every such pair is kept |
| Tracking.UncalledAppend | universal_analytics/tracker.py:161-164 | the kept pairs are a filter of the session in its own order: keeping over a split session is keeping over each part, concatenated |
| Tracking.UncalledAll | universal_analytics/tracker.py:161-164 | a session none of whose codes the call names is kept whole |
| Tracking.FillUncalled | universal_analytics/tracker.py:161-164 | the corrected session-fill loop computes `FilledByCode` |
| Tracking.CallTimeWins | universal_analytics/tracker.py:161-166 | with the corrected fill, every wire code a call-time key resolves to holds the value of the last call-time key resolving to it |
| Tracking.CallTimeHitWins | universal_analytics/tracker.py:144-172 | the same for the whole corrected send, for every code but a hashed `cid` |
| Tracking.SessionFillsUncalled | universal_analytics/tracker.py:161-166 | with the corrected fill, a session pair under its own wire code that the call does not name puts its coerced value in the payload, when it is the session's only pair under or resolving to that code |
| Tracking.CallTimeHitSessionFills | universal_analytics/tracker.py:144-172 | the same for the whole corrected send, for every code but a hashed `cid` |
| Tracking.CallTimeHitIsHit | universal_analytics/tracker.py:144-172 | the corrected send is send over the session pairs the call does not name, so HitOutcome and every other all-sessions property of `Hit` holds of it |
| Tracking.CallTimeOverridesSession | universal_analytics/tracker.py:161-166 | with the corrected fill, the inputs of SessionOverridesCallTime send `dp=/x` |
| Tracking.HashedClientId | universal_analytics/tracker.py:168-169 | hashing succeeds exactly when cid is present and a str, and then replaces it by its uuid; a missing cid raises KeyError |
| Tracking.HitOutcome | universal_analytics/tracker.py:144-172 | an unsupported hit type raises KeyError; every value of the hit is a str, int or float; send raises KeyError exactly when the hit type is unsupported or, when hashing, the assembled payload has no cid |
| Tracking.PageviewHit | tests/test_tracker.py:57-64 | `send("pageview", path)` on a fresh tracker yields `t, dp, v, tid, cid` in that order, with the call's values first and the session's after, for any table that registers those five codes to themselves |
| Tracking.StandardPageviewCodes | universal_analytics/tracker.py:254-274 | the module's declarations register `t`, `dp`, `v`, `tid` and `cid` to themselves, whatever the table held before |
| Tracking.CallTimePageviewHit | tests/test_tracker.py:57-64 | the corrected send yields the same pageview as PageviewHit, since the call names none of the session's codes |
| Tracking.StandardPageviewHit | tests/test_tracker.py:57-64 | the pageview hit of PageviewHit, through the table the module's declarations build, with no hypothesis on the table |
| Tracking.InitialKeys | universal_analytics/tracker.py:106-109 | a fresh tracker holds v, tid and cid, then uid when a user id is given, in that order |
| Tracking.InitialValues | universal_analytics/tracker.py:106-109 | v is 1, tid is the account, cid is the client id or else the generated uuid, and uid is present exactly when a user id is given |
| Tracking.Item | universal_analytics/tracker.py:111-113 | `tracker[name]` fails exactly when the name does not resolve, with its error; otherwise it is the session value under the wire code, or None |
| Tracking.Assigned | universal_analytics/tracker.py:115-117 | `tracker[name] = v` propagates a resolution error; otherwise it stores the coerced value under the wire code and changes no other key |
| Tracking.Deleted | universal_analytics/tracker.py:119-122 | `del tracker[name]` removes the wire code and keeps everything else; it changes nothing when the code is absent, and fails exactly when the name does not resolve |
| Tracking.SetThenGet | universal_analytics/tracker.py:111-117 | reading a name back after assigning it gives the coerced value |
| Tracking.DeleteThenGet | universal_analytics/tracker.py:111-122 | reading a name back after deleting it gives None |
| Tracking.AliasesShareEntry | universal_analytics/tracker.py:111-117 | all names of one wire code read and write the same session entry |
| Tracking.TypedItemAsWrittenRaises | universal_analytics/tracker.py:111-122 | as written, reading or deleting an int- or float-typed name raises TypeError, while the corrected operations succeed |
| Tracking.VersionItemAsWritten | universal_analytics/tracker.py:106-113 | on a fresh tracker, `tracker["v"]` as written raises TypeError; the corrected read gives 1 |
| Tracking.ItemAsWrittenAgrees | universal_analytics/tracker.py:111-122 | for `&` names, unknown names and str-typed names, the code as written and the corrected version agree |
| Tracking.FirstEscape | universal_analytics/tracker.py:178-190 | the position of the first entry whose error `set` does not swallow |
| Tracking.SetIgnoresUnknownName | universal_analytics/tracker.py:185-190 | `set` with an unrecognised str name changes nothing and raises nothing |
| Tracking.SetIgnoresOtherNames | universal_analytics/tracker.py:178-190 | `set` with a name that is neither a dict nor a str does nothing |
| Tracking.SetStoresPayload | universal_analytics/tracker.py:178-184 | when no entry raises anything but KeyError, `set` stores what payload yields: recognised entries under their codes, last one winning, other codes unchanged |
| Tracking.Tracker.Set | universal_analytics/tracker.py:174-190 | the loop leaves the parameters and the raised error that `SetOutcome` describes; writes made before the error are kept |
| Tracking.Tracker.SetItem | universal_analytics/tracker.py:115-117 | stores `Assigned`; on error the parameters are as before and the error is returned |
| Tracking.Tracker.DelItem | universal_analytics/tracker.py:119-122 | applies `Deleted`; on error the parameters are as before and the error is returned |
| Tracking.Tracker.constructor | universal_analytics/tracker.py:100-109 | the tracker starts with `InitialParams`, and its account is the given account |
| Tracking.Tracker.Assemble | universal_analytics/tracker.py:148-169 | the imperative body of send, with the corrected fill, computes `CallTimeHit` |
| Tracking.Tracker.Send | universal_analytics/tracker.py:144-172 | when send raises, the transport is untouched; otherwise the transport has done exactly one send of the hit, and its buffer invariant holds |
| Requests.SingleIsBatchOfOne | universal_analytics/requests.py:15-18 | a single mapping is encoded as the one-element list holding it |
| Requests.SplitJoin | universal_analytics/requests.py:18 | splitting a newline-join of newline-free parts at newlines gives the parts back |
| Requests.DecodePayload | universal_analytics/requests.py:15-18 | when no mapping encodes to a newline, the lines of the body are the per-mapping encodings, in list order |
| Requests.UserAgentOr | universal_analytics/requests.py:22-26 | the user agent is the given one when it is non-empty, else "Universal Analytics" |
| Requests.HTTPRequest.constructor | universal_analytics/requests.py:25-31 | a given session is used as is; otherwise a new open session with headers `{"User-Agent": user_agent}` and no posts; the buffer starts empty |
| Requests.HTTPRequest.PostPayload | universal_analytics/requests.py:59-65 | one post of `encode_payload(payload)` to the endpoint, appended to the session log |
| Requests.HTTPRequest.Flush | universal_analytics/requests.py:89-92 | `_send` posts the buffer as one batch when it is non-empty, and empties it in every case |
| Requests.HTTPRequest.Send | universal_analytics/requests.py:59-97 | the single-hit request posts the hit to the collect endpoint; the batching request appends it and, on reaching 20, posts the whole buffer once and empties it; the buffer holds fewer than 20 between calls |
| Requests.HTTPRequest.Close | universal_analytics/requests.py:67-101 | close posts what is buffered, then closes the session |
| Requests.FlattenBatches | universal_analytics/requests.py:89-97 | concatenating the batches gives back the hits, so nothing is lost or reordered |
| Requests.BatchSizes | universal_analytics/requests.py:80-97 | every batch holds 20 hits except a possibly shorter, non-empty last one |
| Requests.BatchCount | universal_analytics/requests.py:94-101 | k hits make ceil(k/20) batches |
| Requests.BatchesAppend | universal_analytics/requests.py:94-97 | the batches of a multiple of 20 hits followed by more hits are the batches of each part |
| Requests.BatchPostsAppend | universal_analytics/requests.py:89-92 | the posts of two runs of batches are the posts of each run, in order |
| Requests.LastBatchPosts | universal_analytics/requests.py:89-92 | at most 20 buffered hits make one post, and none make no post |
| Requests.BatchFilled | universal_analytics/requests.py:89-97 | filling the next 20 hits adds exactly one post, of those hits |
| Requests.BatchRemainder | universal_analytics/requests.py:89-101 | the hits left after the last full batch make one post when there are any |
| Requests.SendFilling | universal_analytics/requests.py:94-97 | a send that brings the buffer to 20 posts exactly the next full batch and empties the buffer |
| Requests.SendBuffering | universal_analytics/requests.py:94-97 | a send that leaves the buffer below 20 appends the hit and posts nothing |
| Requests.SendNext | universal_analytics/requests.py:94-97 | one more send either fills and posts the current batch or adds the hit to the buffer, keeping the posted-batches invariant |
| Requests.SendAll | universal_analytics/requests.py:94-97 | after the sends, the session holds one post per full batch and the buffer holds the rest, in order |
| Requests.SendAllThenClose | universal_analytics/requests.py:94-101 | k sends then close post exactly the batches of the hits, in order, and close the session |
| Requests.BatchPosts | universal_analytics/requests.py:89-92 | one post per batch |
| Requests.BatchPostAt | universal_analytics/requests.py:89-92 | the i-th post carries the i-th batch, to the batch endpoint |
| Requests.FiftyHitBatches | universal_analytics/requests.py:94-97 | fifty hits make batches of 20, 20 and 10 hits |
| Requests.FiftyHitsThreePosts | tests/test_requests.py:39-47 | fifty hits make exactly three posts, of 20, 20 and 10 hits, in order |
| Requests.TwoHitsOnePost | tests/test_requests.py:25-37 | two hits make one batch, and the posts SendAllThenClose makes of it are exactly one post to the batch endpoint carrying both hits, in order |

## Left out

- Network I/O: the httpx client is a `Session` object that logs `(url, body)` posts and a closed flag. Responses, HTTP errors and posting to a closed session are not modelled.
- The async classes `AsyncHTTPRequest` and `AsyncHTTPBatchRequest` (`requests.py:104-163`) are not part of this model. They repeat the synchronous logic under cooperative scheduling.
- `HTTPRequest` and `HTTPBatchRequest` are one class whose `batched` flag selects the endpoint and the overriding methods. The model has no subclassing.
- The context-manager methods `__enter__`/`__exit__` (`requests.py:53-57`) are left out. `__exit__` is `close`.
- `urllib.parse.urlencode`, `float()`, `int()` on non-int values, `str()` and the MD5 uuid of `generate_uuid(<str>)` are uninterpreted functions, passed in with the request or in `Builtins`. `uuid4()` is a string parameter (`generatedId`) of the tracker constructor.
- `safe_unicode`'s decode fallback is left out: safe_unicode and str coincide.
- Floats are reals. Float rounding, NaN and infinities are not modelled. `int()` of a float is truncation toward zero.
- `Time.from_unix`, `to_unix` and `milliseconds_offset` are not modelled as functions. `time.time()` is a parameter `now`, a datetime is a Unix timestamp, and the two timestamp branches of `hittime` are written out as the arithmetic those helpers perform.
- Tracking.Hittime: milliseconds are whole numbers; a float milliseconds argument is not modelled.
- Dict keys are strings. Non-string keys in a dict passed to `set` or to `send` are not modelled, nor is an unhashable name reaching the alias-table lookup.
- The generated families of `tracker.py:415-490` are a membership function over index ranges instead of the 45,646 table entries the loops register (800 custom definitions, 6 singles, 4,090 product, 40,700 impression, 10 list-name and 40 promotion names). The explicit declarations take precedence in lookups. That no explicit name of `tracker.py:254-412` has the shape of a family name is checked by reading, not proved: none contains a digit, and none is one of the six single family names.
- Tracking.HashedClientId requires that cid is not None. The random-uuid branch of `generate_uuid(None)` cannot be reached there, because the payload pass never yields None.
- The keyword arguments of `send(hittype, *args, **data)` (`tracker.py:144`) become an explicit dict argument `data`. Python's keyword-argument rules are not modelled. `set(name, value=None)` (`tracker.py:174`) takes no keyword arguments and is modelled with its two parameters.
- Logging (`logger.debug`) and `setup.py` are not modelled.
- Tracker.GetItem and Tracker.Account are thin reads of the session dict through `Item` and `Get`. Their properties are proved about `Item` and `InitialValues`.

## Findings

| source | as written | input that shows it | evidently intended | confidence | as-written member | corrected member |
|---|---|---|---|---|---|---|
| universal_analytics/tracker.py:111-122 | `__getitem__` and `__delitem__` resolve the name by calling `coerceParameter(name, None)`, which runs the typecast on None | `tracker["v"]` on a fresh tracker: `int(None)` raises TypeError although `params["v"] == 1`; likewise `del tracker["qt"]`, or any int- or float-typed name | resolve the name only, with no coercion, and read or delete its wire code | not executed | Tracking.ItemAsWritten, Tracking.DeletedAsWritten (lemmas Tracking.TypedItemAsWrittenRaises, Tracking.VersionItemAsWritten) | Tracking.Item, Tracking.Deleted (lemmas Tracking.SetThenGet, Tracking.DeleteThenGet; used by Tracking.Tracker.GetItem and Tracking.Tracker.DelItem) |
| universal_analytics/tracker.py:161-166 | the session fill skips a session key only when the call's data holds that same raw key; `dict(self.payload(data))` then keeps the last pair written to each wire code | `tracker["dp"] = "/y"`, then `send("pageview", page="/x")`: `page` is not the raw key `dp`, so the session's `dp` is appended and overwrites the call's page, and the hit carries `dp=/y` | call-time data beats session data for every wire code it names, whatever alias it uses | not executed | Tracking.Hit, Tracking.FillFromSession (lemmas Tracking.SessionOverridesCallTime, Tracking.StandardSessionOverridesCallTime; what does hold: Tracking.HitKeepsCallTimeCode) | Tracking.FilledByCode, Tracking.CallTimeHit (lemmas Tracking.CallTimeWins, Tracking.CallTimeHitWins, Tracking.SessionFillsUncalled, Tracking.CallTimeHitSessionFills, Tracking.CallTimeOverridesSession; used by Tracking.Tracker.Assemble and Tracking.Tracker.Send) |
| universal_analytics/tracker.py:230-232 | `hittime(timestamp=<int or float>)` calls `Time.from_unix(timestamp, milliseconds=milliseconds)`, and milliseconds is None when set_timestamp calls it | `send("pageview", hittime=1572802237)`: `None * .001` raises TypeError inside from_unix | pass `milliseconds or 0`, as the age branch does | not executed | Tracking.HittimeAsWritten (lemma Tracking.HittimeNumericTimestampRaises) | Tracking.Hittime (lemma Tracking.TimestampAgreesWithAge; used by Tracking.Timestamped) |
