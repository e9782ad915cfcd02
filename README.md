# Profile routes of a MERN social app, modelled in Dafny

This project models the Express router behind `api/profile`. The router:

- reads profiles from a document store;
- creates or updates the caller's profile from a request body;
- deletes an account together with its posts;
- adds and removes experience and education entries.

The store is made of three maps:

- users, keyed by id;
- profiles, keyed by the id of the user they belong to;
- posts, keyed by id.

`ProfileRoutes.ProfileController` is a class holding these maps. It has one function for each read route and one method for each mutating route. Every handler runs as a single atomic step and returns a `Response` (status code and body). Its invariant `Valid()` says that each stored profile belongs to the user it is filed under.

The other modules hold what the handlers are built from:

- `Validation`: the `check(field, msg).not().isEmpty()` chains and the `errors` array they produce.
- `UpdateRecord`:
  - the sparse `profileFields` record the `POST /` handler builds;
  - the parsing of the comma-separated `skills` field;
  - the record's two uses, `$set` into an existing profile and `new Profile` from it.
- `SubRecords`: the entries the `PUT` routes prepend, and the removal the `DELETE` routes actually perform.
- `JsStrings` and `JsArrays`: the JavaScript built-ins these depend on, namely `split`, `trim`, `splice`, and the coercion of an array to a `splice` start index.
- `Documents`: the stored documents, request bodies and responses.
- `Wrappers`: `Option`.

The two sub-record `DELETE` routes are modelled as they are written, not as their names suggest:

- The index they pass to `splice` is the result of a `map` whose callback returns nothing. That result is an array of `undefined`, and it coerces to start index 0. So the first entry is removed, whatever identifier the request names.
- The education route also maps over the experience list.

`SubRecords.RemoveById` is a removal by identifier, given for contrast. `SubRecords.AsWrittenAgreesOnlyAtHead` proves that the two removals agree exactly when the list is empty or the requested entry is the first one.

Two more places where the model follows the code rather than the obvious reading:

- `$set` always replaces `social` as a whole. An update that names no links therefore clears the stored ones. Every other absent field is kept.
- A `PUT` or `DELETE` on a sub-record list, made by a caller who has no profile, dereferences `null`. The handler's `catch` then answers 500 with the JSON string `"Server Error"`.

## Model

| member | source | states |
|---|---|---|
| ProfileRoutes.ProfileController.GetOwnProfile | routes/api/profile.js:12-21 | 200 with the caller's profile exactly when one is stored, which then belongs to the caller; otherwise 400 "There is no profile for this user" |
| ProfileRoutes.ProfileController.ListProfiles | routes/api/profile.js:29-32 | 200 with every stored profile and nothing else; under the invariant, no two listed profiles share a user |
| ProfileRoutes.ProfileController.GetProfileByUserId | routes/api/profile.js:40-46 | 200 exactly when the id casts and a profile is filed under it; a missing profile and a malformed id both give 400 "Profile not found" |
| ProfileRoutes.ProfileController.UpsertProfile | routes/api/profile.js:53-101 | on validation errors: 400 with them and the store unchanged; otherwise the caller's profile is `$set` from the update record, or created from it; no other profile, user or post changes; the invariant holds |
| ProfileRoutes.ProfileController.DeleteAccount | routes/api/profile.js:111-119 | the caller's posts, profile and user are gone; every other user, profile and post is untouched; 200 "User deleted"; the caller's profile can no longer be read |
| ProfileRoutes.ProfileController.AddExperience | routes/api/profile.js:127-145 | on validation errors: 400 and nothing changes; with no profile: 500; otherwise the new entry goes in front of the caller's experience list and nothing else changes |
| ProfileRoutes.ProfileController.RemoveExperience | routes/api/profile.js:153-163 | with no profile: 500; otherwise the first experience entry goes, whatever `exp_id` is, and nothing else changes |
| ProfileRoutes.ProfileController.AddEducation | routes/api/profile.js:172-191 | as `AddExperience`, on the education list |
| ProfileRoutes.ProfileController.RemoveEducation | routes/api/profile.js:199-209 | with no profile: 500; otherwise the first education entry goes, whatever `edu_id` is; experience is untouched |
| ProfileRoutes.ProfileController.Put | routes/api/profile.js:89-100 | the store write behind `findOneAndUpdate` and `save`: the profile is filed under its own user, nothing else changes, and the invariant holds |
| Documents.PostsNotBy | routes/api/profile.js:114 | exactly the posts by someone other than the user are kept, each unchanged |
| Validation.Validate | routes/api/profile.js:58-60 | `validationResult(req).array()` over a chain of rules: never more errors than rules; `ValidateCount` and `ValidateAt` pin down how many and where |
| Validation.ValidateEmpty | routes/api/profile.js:58-60 | never more errors than rules, and no error exactly when every checked value is non-empty |
| Validation.ValidateCount | routes/api/profile.js:58-60 | exactly one error per rule whose value is empty |
| Validation.ValidateAt | routes/api/profile.js:58-60 | a failing rule's error sits right after the errors of the failing rules declared before it, so the errors follow declaration order whichever rules fail |
| Validation.ValidateMembers | routes/api/profile.js:58-60 | an error is reported exactly when it is the error (`ErrorOf`: the rule's message and field, location `"body"`) of a rule whose value is empty |
| Validation.ValidateAllFail | routes/api/profile.js:58-60 | when every rule fails, the errors are the rules' errors in declaration order |
| Validation.ReportedIffEmpty | routes/api/profile.js:58-60 | with distinct field names, a rule's error is present exactly when its value is empty |
| Validation.ValidateCons | routes/api/profile.js:58-60 | a rule put in front of a chain puts its error, if any, in front of the chain's errors |
| Validation.ProfileErrors | routes/api/profile.js:53-56 | no errors exactly when `status` and `skills` are both non-empty; each message is present exactly when its field is empty; no other message; both in order when both fail |
| Validation.ProfileErrorsValidate | routes/api/profile.js:53-60 | the `POST /` errors are what its two-rule chain reports |
| Validation.ProfileErrorsPlaced | routes/api/profile.js:53-60 | one error per empty field among `status` and `skills`, `status`'s first |
| Validation.ExperienceErrors | routes/api/profile.js:127-131 | no errors exactly when `title`, `company` and `from` are non-empty; each message exactly when its field is empty; no other; all three in order when all fail |
| Validation.ExperienceErrorsValidate | routes/api/profile.js:127-135 | the `PUT /experience` errors are what its three-rule chain reports |
| Validation.ExperienceErrorsPlaced | routes/api/profile.js:127-135 | one error per empty field among `title`, `company` and `from`, each right after those of the empty fields before it |
| Validation.EducationErrors | routes/api/profile.js:172-177 | no errors exactly when `school`, `degree`, `fieldofstudy` and `from` are non-empty; each message exactly when its field is empty; no other; all four in order when all fail |
| Validation.EducationErrorsValidate | routes/api/profile.js:172-180 | the `PUT /education` errors are what its four-rule chain reports |
| Validation.EducationErrorsPlaced | routes/api/profile.js:172-180 | one error per empty field among `school`, `degree`, `fieldofstudy` and `from`, each right after those of the empty fields before it |
| Validation.ValidateFour | routes/api/profile.js:173-176 | a four-rule chain reports the errors of its rules one after another |
| UpdateRecord.ProfileFields | routes/api/profile.js:63-82 | the record holds the caller as `user`; each other field, and each social link, is present exactly when the body's value is truthy, and is then that value; `skills` is the parsed list |
| UpdateRecord.BuildProfileFields | routes/api/profile.js:65-76 | the field-by-field construction yields exactly `ProfileFields` |
| UpdateRecord.BuildSocial | routes/api/profile.js:77-82 | the link-by-link construction of `social` yields exactly the truthy links |
| UpdateRecord.SocialLinks | routes/api/profile.js:77-82 | each link is present exactly when the body's value is truthy, and is then that value |
| UpdateRecord.TrimAll | routes/api/profile.js:74 | `.map(skill => skill.trim())`: as many results as pieces, each the trim of the piece at its position |
| UpdateRecord.ParseSkills | routes/api/profile.js:74 | one skill more than there are commas, none with whitespace at either end |
| UpdateRecord.ParseSkillsPieces | routes/api/profile.js:74 | one skill per comma-separated piece (one more than the commas); each skill is that piece with the whitespace around it removed, with no whitespace at its ends and no comma |
| UpdateRecord.ParseSkillsExample | routes/api/profile.js:74 | `"a, b ,c"` is read as `["a", "b", "c"]` |
| UpdateRecord.ParseSkillsSpaced | routes/api/profile.js:74 | three one-character skills, the middle one padded with spaces, are read without the padding |
| UpdateRecord.SetFields | routes/api/profile.js:89-93 | `$set`: each text field the record carries replaces the stored one and the others are kept; `skills` likewise; `social` is replaced whole; the experience and education lists are kept |
| UpdateRecord.CreateProfile | routes/api/profile.js:98 | `new Profile`: the record's fields, `skills` defaulting to an empty list, and empty experience and education lists |
| UpdateRecord.SetFieldsIdempotent | routes/api/profile.js:89-93 | setting the same record twice is setting it once |
| UpdateRecord.SetFieldsAfterCreate | routes/api/profile.js:87-100 | setting a record into the profile it created changes nothing, so a repeated `POST /` with the same body is stable |
| UpdateRecord.UpsertedFields | routes/api/profile.js:63-93 | after an update from body `b`, each text field holds `b`'s value where it was truthy and the old value otherwise |
| JsStrings.Trim | routes/api/profile.js:74 | the result has no whitespace at its ends and is the piece of the input that only whitespace surrounds |
| JsStrings.TrimUnique | routes/api/profile.js:74 | any such piece is the trimmed string, so `Trim` is the one meaning of "strip surrounding whitespace" |
| JsStrings.TrimIdempotent | routes/api/profile.js:74 | trimming twice is trimming once |
| JsStrings.TrimKeepsCharacters | routes/api/profile.js:74 | trimming only keeps characters of its input |
| JsStrings.Split | routes/api/profile.js:74 | `split(',')` never returns an empty array, even for `""`; its count, pieces and round trip are stated by the four lemmas below |
| JsStrings.SplitCount | routes/api/profile.js:74 | `split(',')` gives one more piece than there are commas |
| JsStrings.SplitPiecesFree | routes/api/profile.js:74 | no piece contains the separator |
| JsStrings.SplitJoin | routes/api/profile.js:74 | joining the pieces with the separator gives back the string |
| JsStrings.JoinSplit | routes/api/profile.js:74 | splitting a join of separator-free pieces gives back the pieces |
| JsArrays.UndefinedArrayToString | routes/api/profile.js:157-161 | `String` of an array of `n` `undefined` is `n - 1` commas and nothing else (empty for `n` of 0 or 1) |
| JsArrays.UndefinedArrayAsIndex | routes/api/profile.js:157-161 | an array of `undefined` of any length, passed as the `splice` start index, goes through `String` (commas only), `Number` (0 or NaN) and ToIntegerOrInfinity (NaN to 0) and comes out as 0 |
| JsArrays.Splice | routes/api/profile.js:161 | `splice` removes the clamped delete count at the clamped relative start and keeps everything else in order |
| JsArrays.SpliceInRange | routes/api/profile.js:161 | with a start inside the array and a count that fits, `splice` cuts out exactly `deleteCount` elements from `start` on |
| JsArrays.SpliceFromEnd | routes/api/profile.js:161 | a negative start counts back from the end, and stops at the beginning |
| JsArrays.SplicePastEnd | routes/api/profile.js:161 | a start at or past the end removes nothing |
| JsArrays.DeleteCount | routes/api/profile.js:161 | the delete count never exceeds what lies after the start, and an in-range count is kept |
| JsArrays.SpliceFirst | routes/api/profile.js:161 | `splice(0, 1)` drops the first element, if any |
| SubRecords.RemoveAsWritten | routes/api/profile.js:157-161 | the removal the `DELETE` routes perform drops the first entry whatever identifier was asked for |
| SubRecords.RemoveUndoesPrepend | routes/api/profile.js:143 | removing right after a `PUT` takes off the entry just prepended |
| SubRecords.FindIndexById | routes/api/profile.js:157-158 | the position of the first entry with the identifier, or none exactly when no entry has it |
| SubRecords.RemoveById | routes/api/profile.js:161 | the removal by identifier: nothing changes when the id is absent; otherwise the first entry with that id goes, and with unique ids none is left |
| SubRecords.AsWrittenDiffers | routes/api/profile.js:157-161 | when the first entry is not the one asked for, the removal as written and removal by identifier leave different lists |
| SubRecords.AsWrittenAgreesOnlyAtHead | routes/api/profile.js:157-161 | the removal as written equals removal by identifier exactly when the list is empty or its first entry is the one asked for |

## Left out

- The GitHub proxy route (lines 218-241) is an outbound HTTP call. It is not modelled.
- Store failures are not modelled: the `catch` branches that answer 500 because the database threw (lines 22-25, 33-36, 47-48, 103-106, 120-123, 146-149, 165-168, 192-195, 211-214). The only 500 the model gives is the one caused by a missing profile in the sub-record routes.
- `populate('user', ['name', 'avatar'])` is not modelled. Responses carry the stored profile, not the joined user fields.
- The ObjectId cast of `:user_id` is not modelled in detail. The path id either casts or is `Malformed`.
- The authentication middleware is not modelled: the caller's id is a given parameter.
- express-validator's internals are not modelled. A rule reads the body field only. The `value` entry of each error is dropped. A missing field is reported with location `"body"`.
- Mongoose schema casting, defaults and save-time validation are not modelled. Body values are strings, or booleans for `current`. Dates stay strings. Entry ids are supplied by the caller of the method. Only the array defaults of `new Profile` are kept.
- Concurrency is not modelled. The three deletions of `DELETE /` are separate awaits in the source and are not atomic; the model runs each handler as one step.
- Logging (`console.error`) is not modelled.
- JavaScript strings are UTF-16 code-unit sequences; here they are sequences of characters.
- `GET /` returns an array in store order. ProfileRoutes.ProfileController.ListProfiles returns the set of stored profiles, so that order is not modelled.
- The handlers in the source mutate the fetched document in place and call `save`. The model computes the new profile as a value and stores it under the caller's id.
- `SubRecords.NewExperience` and `SubRecords.NewEducation` only collect the body's fields into an entry. They carry no contract of their own; the `Add` methods state their use.
