# Natours core logic in Dafny

This project models the decision and transformation logic of the Natours tour-booking API. That API is an
Express/Mongoose application. The model replaces the database, the crypto libraries and HTTP with values
and function parameters. It covers:

- **Query builder.** The `APIFeatures` builder, a class whose methods append directives to a Mongoose
  query. It builds the operator-rewritten filter, the sort, the field projection and the pagination.
- **Errors.** The `AppError` constructor, and the global error middleware with its development and
  production envelopes.
- **Authentication and authorisation.** Login, `protect`, `restrictTo` and the ownership check. Also the
  in-place `filterUser` scrub, and the password-reset lifecycle across the user document's validators and
  its pre-save hook.
- **User self-service.** `filterObj`, `updateMe`, `deleteMe` and `getMe`.
- **Reviews.** The rating aggregate a tour carries, the one-review-per-user-and-tour index, and the
  hooks that recompute the aggregate.
- **Tours.** The tour validators and the secret-tour query and aggregation hooks. The `aliasTopTours`
  middleware, and the parameter checks of the two geospatial handlers.

Collections are values: users are a `seq<User>`, reviews a `seq<Review>`, tours a `map<Id, Tour>`.
Objects that the source changes in place are classes with `modifies` clauses:

- the query builder;
- a loaded user document;
- the `_doc` map that `filterUser` scrubs;
- an aggregation;
- the Express request.

The token signer and verifier, bcrypt, SHA-256, the clock, random bytes and the mailer are parameters.

Pagination follows the code: `x * 1 || default` replaces only 0 and NaN, so a negative `page` or `limit`
is kept as given. `ApiFeatures.Pagination` states that behaviour.

## Model

| member | source | states |
|---|---|---|
| ApiFeatures.APIFeatures.constructor | utils/apiFeatures.js:2-9 | the builder keeps the query and the query-string object as given; no field is selected yet |
| ApiFeatures.APIFeatures.Filter | utils/apiFeatures.js:11-26 | appends one `find` whose criteria are the query string without `page`, `sort`, `limit`, `fields`, operators rewritten; the query-string object is not changed and the same builder is returned |
| ApiFeatures.FilterCriteriaKeys | utils/apiFeatures.js:13-19 | a query-string key reaches the criteria (rewritten) exactly when it is not reserved, with its value rewritten; no reserved key ever appears |
| ApiFeatures.RewriteObject | utils/apiFeatures.js:18 | every key and value of the copied object is rewritten, and every key of the result comes from a key of the input |
| ApiFeatures.RestoreRewrite | utils/apiFeatures.js:18 | removing the `$` in front of each whole operator word undoes the rewrite, so no information is lost |
| ApiFeatures.RewriteInjective | utils/apiFeatures.js:18 | distinct strings stay distinct after the rewrite, so rewritten keys never collide |
| ApiFeatures.RewriteWholeWord | utils/apiFeatures.js:18 | a whole word gains one `$` exactly when it is `gte`, `gt`, `lte` or `lt`; any other word, including longer words containing them, is kept |
| ApiFeatures.RewriteConcat | utils/apiFeatures.js:18 | the rewrite of a text followed by a part that starts with a non-word character is the two parts rewritten separately: no operator word spans the boundary |
| ApiFeatures.RewriteAroundSeparator | utils/apiFeatures.js:18 | the rewrite works word by word: it commutes with cutting the text at a non-word character |
| ApiFeatures.ReservedUnchanged | utils/apiFeatures.js:14-18 | the reserved names `page`, `sort`, `limit`, `fields` are left alone by the rewrite |
| ApiFeatures.WordRunLength | utils/apiFeatures.js:18 | the length of the leading word-character run that a `\b`-delimited match sees |
| ApiFeatures.APIFeatures.Sort | utils/apiFeatures.js:28-37 | a non-empty text parameter is passed on with commas turned into spaces; absent or empty gives `-createdAt`; a bracketed (object) parameter throws TypeError; the query-string object is not changed |
| Text.JoinSplitIsReplace | utils/apiFeatures.js:31 | `split(',').join(' ')` replaces every comma by a space and changes nothing else |
| ApiFeatures.APIFeatures.Fields | utils/apiFeatures.js:39-55 | a non-empty parameter selects the distinct comma-separated names in first-occurrence order and projects them; absent or empty leaves query and `selectedFields` unchanged; an object parameter throws TypeError |
| ApiFeatures.Dedup | utils/apiFeatures.js:42-47 | the key list of `infields` holds exactly the names of the parameter, each once |
| ApiFeatures.DedupFirstOccurrenceOrder | utils/apiFeatures.js:42-47 | the selected names appear in the order of their first occurrence |
| ApiFeatures.FirstIndex | utils/apiFeatures.js:44-46 | the first position of a name in the split parameter |
| ApiFeatures.APIFeatures.Limit | utils/apiFeatures.js:57-64 | appends `skip((page-1)*limit)` and `limit(limit)`; the query-string object and selection are unchanged |
| ApiFeatures.Pagination | utils/apiFeatures.js:59-62 | page 1 and limit 100 when the parameter is absent, 0 or NaN; any other parsed value, negative included, is used unchanged; page 1 skips nothing; positive page and limit skip a non-negative multiple of the limit ending where the page begins |
| Text.ToNumberDecimalText | utils/apiFeatures.js:59-60 | the `x * 1` coercion reads back the decimal text of every integer |
| AppErrors.AppError | utils/appError.js:2-9 | message and status code are stored as given; status is `fail` exactly when the code's text starts with `4`, else `error`; always operational |
| AppErrors.StatusByLeadingDigit | utils/appError.js:5 | the status is `fail` exactly for non-negative codes whose leading decimal digit is 4 |
| AppErrors.ThreeDigitCodes | utils/appError.js:5 | among codes 100..999 exactly 400..499 give `fail` |
| AppErrors.StandardCodes | utils/appError.js:5 | 400, 401, 403 and 404 give `fail`; 500 and an omitted code (text `undefined`) give `error` |
| AppErrors.LibraryError | controllers/errorController.js:53-55 | an error not made by AppError carries no status code or status and is not operational |
| ErrorController.HandleCastErrorDB | controllers/errorController.js:3-6 | operational 400 `fail` with message `invalid <path>: <value>` |
| ErrorController.FirstQuoted | controllers/errorController.js:9 | the substring of the leftmost match of `(["'])(\\?.)*?\1`: no earlier position opens a match, it starts with a quote and ends where the lazy scan from that quote closes; none exactly when no position opens a match |
| ErrorController.QuotedFrom | controllers/errorController.js:9 | the leftmost match at or after a position: an opening quote, no line terminator, the same quote closing it |
| ErrorController.ClosingFrom | controllers/errorController.js:9 | the lazy scan for the closing quote stops at the first unescaped matching quote before any line terminator |
| ErrorController.HandleDuplicateFields | controllers/errorController.js:8-12 | operational 400 `fail` naming the first quoted value of `errmsg`; no quoted value makes the handler throw |
| ErrorController.HandleValidationErrorDB | controllers/errorController.js:13-17 | operational 400 `fail`: `Invalid input data. ` then every field message joined with `. ` |
| ErrorController.HandleJWTError | controllers/errorController.js:18-20 | operational 401 `fail`, `Invalid token please login again` |
| ErrorController.HandleJWTExpiredError | controllers/errorController.js:21-23 | operational 401 `fail`, `Your token has expired. Please login again` |
| ErrorController.SendErrorDev | controllers/errorController.js:24-31 | the response carries the code, status, whole error, message and stack |
| ErrorController.SendErrorProd | controllers/errorController.js:33-51 | an operational error keeps code, status and message; any other gives 500 `error` `something went very wrong!` |
| ErrorController.GlobalErrorHandler | controllers/errorController.js:53-74 | a missing code becomes 500 and a missing status `error`; development answers with everything; production classifies by CastError, code 11000, ValidationError, JsonWebTokenError, TokenExpiredError in that order; any other mode sends nothing |
| ErrorController.RespondInProduction | controllers/errorController.js:59-72 | the first matching handler replaces the error, in the order CastError, code 11000, ValidationError, JsonWebTokenError, TokenExpiredError; an unrecognised error is sent as it is, hiding it unless operational |
| AuthController.FilterUser | controllers/authController.js:127-134 | in place on `_doc`: every key outside the allow-list now holds undefined, allowed keys keep their values, the key set is unchanged, the same object is returned |
| AuthController.ScrubbedDocIsPublicView | controllers/authController.js:276 | scrubbing a loaded user with `name,email,_id,active,role` keeps all its keys and leaves defined only id, name, email and role; no password, reset token or change time survives |
| AuthController.Secrets | models/userModel.js:32-53 | the only secret fields a user document holds are the password, its change time and the reset token and expiry |
| AuthController.CookieFor | controllers/authController.js:90-113 | the cookie expires the configured number of days from now, is HTTP-only, and is secure exactly in production |
| AuthController.TokenFor | controllers/authController.js:72-77 | the response's token is the signature of the user's `_id`, with the given status and user |
| AuthController.Login | controllers/authController.js:188-227 | a falsy email or password gives 400 before any lookup; an unknown email and a wrong password give the same 400 `Incorrect email or password`; otherwise 200 with a token for the scrubbed user |
| AuthController.BearerToken | controllers/authController.js:244-246 | a token is taken exactly when the header exists and starts with `Bearer`; it is the second space-separated word |
| AuthController.Authenticate | controllers/authController.js:241-279 | a missing bearer header gives 401; success yields a listed user whose password has not changed after the token's `iat` |
| AuthController.ProtectPassesIff | controllers/authController.js:241-279 | the checks run in order: header, token verification, user still listed (401), password not changed after `iat` (401); access is granted exactly when all pass |
| AuthController.Protect | controllers/authController.js:241-279 | sets `req.user` to the scrubbed user exactly when authentication succeeds and changes nothing else on the request |
| AuthController.RestrictTo | controllers/authController.js:293-302 | passes exactly when the user's role is in the route's list; otherwise 403 |
| AuthController.RestrictToAfterProtect | controllers/authController.js:293-302 | after `protect`, the decision depends only on the stored user's role |
| AuthController.UserAuthentication | controllers/authController.js:317-327 | a missing document gives 401 (not 404); a document whose user population came back null throws a TypeError, which is not operational, so production answers the generic 500; otherwise passes exactly when the user's id equals the document's populated or raw user id, else 401 |
| AuthController.NullOwnerError | controllers/authController.js:322 | reading `_id` of a null `doc.user` is a TypeError without status code and not operational |
| AuthController.ResetUrl | controllers/authController.js:359 | the emailed reset URL ends with the raw token |
| AuthController.ForgotPassword | controllers/authController.js:343-381 | an unknown email gives 404; a body without `email` makes the condition `{email: undefined}`, which every user meets, so the first listed user is picked; otherwise the hash of a raw token and an expiry 10 minutes ahead are stored without validation and the raw token is mailed; a mail failure clears both fields and gives 500 |
| AuthController.ResetPassword | controllers/authController.js:397-431 | no listed user whose stored token is the hash of the supplied token with expiry strictly after now gives 400; otherwise password and confirmation are validated, the pre-save hook runs, both reset fields are cleared and a token is sent |
| AuthController.ResetTokenLifetime | controllers/authController.js:397-410 | a reset token issued at `issued` finds its user exactly while `now < issued + 600000` |
| UserModel.RoleError | models/userModel.js:27-31 | the role is valid exactly when it is user, guide, lead-guide or admin |
| UserModel.RoleOrDefault | models/userModel.js:30 | a missing role defaults to `user` |
| UserModel.RequiredError | models/userModel.js:13 | a required path fails exactly when the value is missing or empty |
| UserModel.PasswordError | models/userModel.js:32-37 | the password is valid exactly when present with at least 8 characters |
| UserModel.ConfirmError | models/userModel.js:38-50 | the confirmation is valid exactly when present, at least 8 characters and equal to the password |
| UserModel.UserErrors | models/userModel.js:10-58 | a user document validates exactly when name and email are non-empty, the role is listed and the password and confirmation validators pass |
| UserModel.UserValidationError | models/userModel.js:10-58 | the save-time ValidationError carries one message per failing path, in the order listed |
| UserModel.FieldMessages | models/userModel.js:10-58 | the messages of the failing paths, in order |
| UserModel.MatchingPasswordsValidate | models/userModel.js:32-50 | a password of 8 or more characters confirmed by itself passes both validators |
| UserModel.ConfirmationMustMatch | models/userModel.js:43-48 | a long enough confirmation passes exactly when it equals the password; a short password reports its minimum length |
| UserModel.PreSaveHookEffects | models/userModel.js:64-76 | when the password is modified it is hashed, and `passwordChangedAt = now - 1000` is set only for a document that is not new; the confirmation is always cleared; nothing else changes |
| UserModel.UserDocument.PreSave | models/userModel.js:64-76 | the document's new state is the pre-save hook applied to its old state |
| UserModel.UserDocument.Save | models/userModel.js:64-76 | with validation on, a failing document is rejected unchanged; otherwise the pre-save hook runs and the stored user is replaced by the document's state |
| UserModel.UserDocument.Load | models/userModel.js:10-58 | a loaded document is not new, its password not modified, and it has no confirmation |
| UserModel.UserDocument.Create | models/userModel.js:10-58 | a new document holds the given fields, the role defaulted, and is new |
| UserModel.UserDocument.SetPassword | controllers/authController.js:416-417 | sets password and confirmation and marks the password modified; nothing else changes |
| UserModel.UserDocument.ClearResetToken | controllers/authController.js:376-377 | clears the reset token and its expiry; nothing else changes |
| UserModel.Loaded | models/userModel.js:10-58 | a document read from the store is not new, has an unmodified password and no confirmation |
| UserModel.LoadedRoundTrip | models/userModel.js:10-58 | saving back an unchanged loaded document stores the same user |
| UserModel.UserDocument.CreatePasswordResetToken | models/userModel.js:106-115 | returns the raw token, stores only its hash, and sets the expiry to `now + 600000` |
| UserModel.ListedIffNotDeactivated | models/userModel.js:79-83 | the hooked query, with no other `$ne` condition, admits a user exactly when its `active` is not `false`; users without the field are admitted |
| UserModel.PreFind | models/userModel.js:79-83 | every user find gains the filter `active != false` after its own directives |
| UserModel.PreFindAdmits | models/userModel.js:79-83 | a hooked query admits a user exactly when the query without the hook admits it and its `active` is not `false` |
| UserModel.GlobalRegexHooks | models/userModel.js:79 | the hook names `/^find/g` registers: only names starting with `find`, tested in list order with the regex's `lastIndex` carried from one test to the next |
| UserModel.GlobalRegexHooksIff | models/userModel.js:79 | the first name is registered exactly when it starts with `find`; a later one exactly when it starts with `find` and the name before it was not registered |
| UserModel.GlobalRegexSkipsFindOne | models/userModel.js:79 | when `findOne` directly follows `find` (and `find` does not follow a registered name), `find` is registered and `findOne` is not |
| UserModel.FindOne | models/userModel.js:79-83 | with the hook as intended: the first listed user that matches, or none when no listed user matches |
| UserModel.FindFirst | models/userModel.js:79 | a find the hook is not registered on: the first stored user that matches, deactivated or not |
| UserModel.DeactivatedUserFoundAsWritten | models/userModel.js:79 | as written, `findOne` is not hooked, so it returns a deactivated user that the hooked find would skip |
| UserModel.FindById | models/userModel.js:79-83 | the first listed user with that id, or none when no listed user has it |
| UserModel.Seconds | models/userModel.js:95-98 | `parseInt(ms / 1000, 10)` truncates toward zero |
| UserModel.ChangedPasswordAfterIff | models/userModel.js:92-104 | false without a change time; otherwise true exactly when the change time in whole seconds is after `iat` |
| UserModel.TokenAroundSaveAccepted | models/userModel.js:64-76 | thanks to the one-second back-dating, a token signed at or after a password save (up to one second before it) is not rejected |
| UserModel.TokenBeforeChangeRejected | models/userModel.js:92-104 | a token signed two seconds or more before a password save is rejected |
| UserController.FilterObj | controllers/userController.js:6-13 | the new object holds exactly the keys of the input that are allowed, with the same values; no absent key is added |
| UserController.UpdateErrors | controllers/userController.js:41-46 | the update validators pass exactly when a given name or email is non-empty text |
| UserModel.UpdateValidationError | controllers/userController.js:41-46 | update validators throw a ValidationError whose message starts `Validation failed: ` and names no model, with one message per failing path |
| UserController.Applied | controllers/userController.js:41-46 | only name and email of the stored user change, to the given values |
| UserController.UpdateMe | controllers/userController.js:34-53 | a truthy password or confirmation gives 400 before any update; otherwise only name and email are filtered through, validated and applied to the logged-in user; a missing user gives 500; an email another stored user holds gives the driver's duplicate-key error (code 11000) and writes nothing; with no password fields, valid name and email, a listed user and a free email, the update succeeds; unique emails stay unique |
| UserController.ReplaceKeepsUniqueEmails | models/userModel.js:20 | replacing one user by one whose email no other user holds keeps the emails unique |
| UserController.FirstAdmitted | controllers/userController.js:56 | `findOneAndUpdate` picks the first stored user the condition admits: the user with that id, any user for `{_id: undefined}`, only listed users when the hook runs |
| UserController.Deactivate | controllers/userController.js:56 | `findByIdAndUpdate(target, {active: false})` sets `active` to false on the picked user and changes nothing else; nothing changes when no user is picked |
| UserController.DeleteMeAsWritten | controllers/userController.js:55-61 | answers 204; without an `id` on the request user, the first stored user (or, with the hook, the first listed user) is deactivated, and nothing changes when no user is listed |
| UserController.DeleteMeAsWrittenDeactivatesFirst | controllers/userController.js:56 | the user `protect` attaches has no `id` key, so `deleteMe` as written deactivates the first user the query admits and leaves every other user, the caller included unless it is that user, unchanged |
| UserController.DeleteMe | controllers/userController.js:55-61 | deleting by `_id` sets `active` to false on the logged-in user only and answers 204 |
| UserController.DeletedUserLockedOut | controllers/userController.js:55-61 | after `deleteMe` the same credentials no longer authenticate, because the user is no longer listed |
| UserController.GetMe | controllers/userController.js:29-32 | sets `params.id` to the current user's `_id` and changes nothing else |
| TourModel.Trim | models/tourModel.js:15 | the result is a slice of the input with only white space before and after it, and neither starts nor ends with white space |
| TourModel.TrimStart | models/tourModel.js:15 | a suffix of the input that does not start with white space; everything removed is white space |
| TourModel.TrimEnd | models/tourModel.js:15 | a prefix of the input that does not end with white space; everything removed is white space |
| TourModel.NameError | models/tourModel.js:10-19 | the name is valid exactly when present with 10 to 40 characters after trimming |
| TourModel.RequiredText | models/tourModel.js:68-72 | a required trimmed text path passes exactly when present and non-empty after trimming |
| TourModel.RequiredNumber | models/tourModel.js:20-27 | a required number path passes exactly when present |
| TourModel.DifficultyError | models/tourModel.js:28-36 | the difficulty is valid exactly when it is easy, medium or difficult |
| TourModel.RatingsAverageError | models/tourModel.js:37-43 | the average, defaulted to 4.5, is valid exactly when within [1, 5] |
| TourModel.PriceDiscountError | models/tourModel.js:53-67 | a discount is valid exactly when absent or strictly below the price |
| TourModel.TourValidIff | models/tourModel.js:10-96 | a new tour validates exactly when every field validator passes; the summary must be non-empty after trimming, the cover image, which is not trimmed, only non-empty |
| TourModel.PreFindSecret | models/tourModel.js:236-241 | every tour find gains `secretTour != true` after its own directives |
| TourModel.PreFindSecretAdmits | models/tourModel.js:236-241 | a hooked query admits a tour exactly when the query without the hook admits it and its `secretTour` is not true |
| TourModel.VisibleIffNotSecret | models/tourModel.js:238 | a tour is found exactly when `secretTour` is not true; tours without the field are found |
| TourModel.PopulateGuides | models/tourModel.js:265-279 | guides are populated exactly when there is no projection or `guides` is among the selected fields |
| TourModel.WithSecretMatchShape | models/tourModel.js:285-291 | one `$match secretTour != true` is prepended unless the first stage is `$geoNear`; the original stages follow unchanged |
| TourModel.Aggregate.constructor | models/tourModel.js:285-291 | an aggregation holds the pipeline it was given |
| TourModel.Aggregate.PreAggregate | models/tourModel.js:285-291 | in place on the pipeline: the match is prepended as above; an empty pipeline throws TypeError and is left unchanged |
| ReviewModel.OfTour | models/reviewModel.js:50-53 | `$match: {tour: id}` keeps each review of that tour, as often as it is stored, and no other review |
| ReviewModel.GroupStats | models/reviewModel.js:50-61 | no group exactly when the tour has no review; the count is the number of its reviews; the average is null exactly when none of them is rated |
| ReviewModel.RatedCount | models/reviewModel.js:58 | `$avg` divides by the number of reviews that carry a rating |
| ReviewModel.RatedSumBounds | models/reviewModel.js:14-18 | with every rating in [0, 5], the rating sum lies between 0 and 5 times the number of rated reviews |
| ReviewModel.MeanBounds | models/reviewModel.js:58 | a mean of values in [0, 5] lies in [0, 5] |
| ReviewModel.AverageInRange | models/reviewModel.js:14-18 | with every stored rating in [0, 5], the recomputed average lies in [0, 5] |
| ReviewModel.UpdateTour | models/reviewModel.js:63-66 | only the tour with that id changes, and only when the tour find hook lets it through |
| ReviewModel.CalcAverageRatingsAsWritten | models/reviewModel.js:48-68 | the tours after recomputation as written: only the tour with that id can change |
| ReviewModel.CalcAverageRatings | models/reviewModel.js:48-68 | the same recomputation with the average rounded to a tenth; only the tour with that id can change, and a hidden or missing tour does not change |
| ReviewModel.CalcAverageRatingsMeaning | models/reviewModel.js:48-68 | without reviews the tour gets 0 and 4.5; otherwise the number of its reviews and their mean rating to a tenth, in [0, 5] while every stored rating is |
| ReviewModel.RoundTenthProperties | models/tourModel.js:47 | rounding to a tenth moves a value by at most 0.05, keeps [0, 5], and leaves whole numbers unchanged |
| ReviewModel.ThreeRatingsStats | models/reviewModel.js:50-61 | three reviews of one tour rated 5, 5 and 4 group to a count of 3 and an average of 14/3 |
| ReviewModel.RoundFourteenThirds | models/tourModel.js:47 | 14/3 rounded to a tenth is 4.7 |
| ReviewModel.UnroundedAverageAsWritten | models/tourModel.js:47 | as written, ratings 5, 5 and 4 store the average 14/3; corrected, 4.7 |
| ReviewModel.RatingError | models/reviewModel.js:14-18 | a rating is valid exactly when absent or within [0, 5] |
| ReviewModel.ReviewErrors | models/reviewModel.js:7-32 | a new review validates exactly when it has non-empty trimmed text, a rating in range or none, a tour and a user |
| ReviewModel.DefaultCreatedAtAsWritten | models/reviewModel.js:19-22 | the default creation time as written is the time the schema was loaded |
| ReviewModel.CreatedAtIgnoresCreationTime | models/reviewModel.js:21 | as written, two reviews created at different times get the same default time, which is neither creation time |
| ReviewModel.DefaultCreatedAt | models/reviewModel.js:19-22 | the default evaluated per document is the creation time |
| ReviewModel.CreatedAtIsCreationTime | models/reviewModel.js:19-22 | a review created without an explicit time is stamped with the time of its creation |
| ReviewModel.AppendKeepsInvariants | models/reviewModel.js:42 | adding a review whose (user, tour) pair is free keeps the pairs unique and the ratings in range |
| ReviewModel.CreateReview | models/reviewModel.js:5-42 | a failing validator gives a ValidationError; a taken (user, tour) pair gives the driver's duplicate-key error (code 11000); valid input with a free pair succeeds: the review, its text trimmed, is added and the post-save hook recomputes its tour |
| ReviewModel.CreateReviewKeepsInvariants | models/reviewModel.js:5-42 | creating a review keeps the (user, tour) pairs unique and every stored rating in [0, 5] |
| ReviewModel.IndexOfReview | models/reviewModel.js:74 | the position of the review with that id, or none when no review has it |
| ReviewModel.UpdateErrorsOf | models/reviewModel.js:7-18 | an update passes the validators exactly when a given text is non-empty after trimming and a given rating is in [0, 5]; a delete has none |
| ReviewModel.FindOneAnd | models/reviewModel.js:71-97 | no review with the id gives a code-less AppError and nothing is written; a failing validator gives the update validators' ValidationError (message `Validation failed: …`) and an update onto a (user, tour) pair another review holds the duplicate-key error, both with nothing written; otherwise the review is deleted or its named paths set (text trimmed), the OLD review's tour is recomputed and every other tour, the one the review moved to included, is unchanged; the post hook throws after the write when the old tour is hidden |
| ReviewModel.ReplaceKeepsUniquePairs | models/reviewModel.js:42 | replacing one review by one whose pair no other review holds keeps the pairs unique |
| ReviewModel.UpdateKeepsInvariants | models/reviewModel.js:42 | a valid update whose pair is free keeps the pairs unique and the ratings in range |
| ReviewModel.FindOneAndKeepsInvariants | models/reviewModel.js:71-97 | deleting or updating a review, any paths included, keeps the (user, tour) pairs unique and every stored rating in [0, 5], whatever the query ends with |
| ReviewModel.RemoveKeepsInvariants | models/reviewModel.js:71-97 | removing one review keeps the pairs unique and the ratings in range |
| ReviewController.WithTourAndUser | controllers/reviewController.js:20-24 | a falsy `tour` or `user` is replaced by the route id or the user's id; truthy ones and every other field are kept |
| ReviewController.SetTourAndUserIds | controllers/reviewController.js:20-24 | in place on `req.body` as above; the user's `_id` is read only when the body names no user, and a missing user then throws TypeError |
| ReviewController.CompletedBodyNamesTourAndUser | controllers/reviewController.js:21-22 | on the nested route the new review gets the route's tour and the logged-in user; without a route id it fails validation |
| TourController.AliasTopTours | controllers/tourController.js:57-63 | in place on `req.query`: `limit`, `sort` and `fields` are overwritten, every other key and the rest of the request are kept |
| TourController.TopToursKeepsFilter | controllers/tourController.js:57-63 | the alias does not change the filter the list handler builds |
| TourController.TopToursPages | controllers/tourController.js:58 | the aliased list has pages of five and keeps the caller's page |
| TourController.Center | controllers/tourController.js:70-74 | the latitude and longitude are the first two comma-separated parts, both non-empty, and the text starts with them |
| TourController.CenterOfPair | controllers/tourController.js:70-74 | a latitude and longitude separated by a comma, with anything after another comma, are read back |
| TourController.GeoError | controllers/tourController.js:73 | the parameter errors are operational AppErrors without a status code |
| TourController.ToursWithin | controllers/tourController.js:68-96 | checks centre, then distance, then unit, then `mi`/`km`, each with its message; the radius times the earth's radius (3963.2 mi, 6378.1 km) is the distance |
| TourController.Distances | controllers/tourController.js:98-137 | checks centre, then unit, then `mi`/`km`; the pipeline is `$geoNear` on the centre with multiplier 0.000621371 or 0.001 and a projection of name and distance |
| TourController.DistancesIncludeSecretTours | models/tourModel.js:289 | the distance pipeline starts with `$geoNear`, so secret tours are not filtered from it |
| TourController.GeoErrorResponse | controllers/tourController.js:73 | in production a geo parameter error is answered 500 `error` with its own message, because the AppError carries no status code and is operational |
| TourController.DistancesErrorResponse | controllers/tourController.js:100-111 | in production every rejected distance request is answered 500 `error` with the message of its rejection |

## Left out

- Signup and `updatePassword`, the routers, `app.js`, `server.js`, `catchAsync` and `handlerFactory` (beyond the code-less AppError it raises) are framework glue and are not part of this model.
- Token signing and verification, bcrypt, SHA-256 and random bytes are function parameters. So are the clock and the mailer. The model has no cryptographic properties.
- Mongoose and MongoDB are reduced to a list of query directives, finds over sequences, and pipelines as lists of stages. `getTourStats` and `getMonthlyPlan` are not modelled, and neither is geospatial search itself.
- Sending email, the console logging of non-operational errors, and the track controller's streaming are I/O.
- Floating point is modelled as exact `real`. This covers the radius and multiplier arithmetic and the rating average; float rounding error is not modelled. `durationWeeks` and the slug hook are not modelled.
- The `isEmail` validator, lower-casing of emails, and `trim` are left out for users. Tour names are trimmed only of the common white-space characters; the full Unicode white-space set is not used.
- Text.ToNumber: `x * 1` is modelled for optionally signed decimal integers and the empty string only. Fractions, exponents, hexadecimal and surrounding white space are read as NaN.
- The operator rewrite is applied to the keys and string values of the parsed two-level query object, not to its JSON text. JSON escapes of control characters are not modelled, and arrays from repeated query keys are not modelled.
- ApiFeatures.APIFeatures.Fields: `Object.keys` lists integer-like keys first in ascending order. The model keeps first-occurrence order for all names.
- ErrorController.GlobalErrorHandler: the production copy `{ ...err }` copies only own properties. The model treats `name` and `code` as own properties of every error it receives.
- The review schema's text `minLength`/`maxLength` options are not modelled. Review population is modelled only where it decides an outcome: a populated tour the tour hook hides (`ReviewModel.FindOneAnd`) and a populated user that comes back null (`AuthController.UserAuthentication`). ReviewController.ReviewInputOf reads only numeric ratings and textual reviews, so any other type counts as missing. ObjectId cast failures are not modelled.
- Tour validators are modelled for creation only, not for updates. The tour's `ratingsAverage` bounds are not applied to `calcAverageRatings`. That update runs no validators, so an average below 1 can be stored.
- Values of `_doc` that hold undefined are omitted from the public view. A non-text email, password or name counts as missing.
- bcrypt's rejection of a non-string candidate password is not modelled.
- UserModel.FindOne: models the hook as evidently intended, on every find. As written, `/^find/g` skips each name that directly follows a registered one, so `findOne` is unhooked (see Findings). `UserModel.FindFirst` is the unhooked find.
- UserModel.FindById: models the intended hook; as written `findById` runs through the unhooked `findOne`, so it also returns deactivated users.
- AuthController.Authenticate: uses the intended hooked `findById`; as written a deactivated user's token still authenticates.
- AuthController.Login: uses the intended hooked `findOne`; as written a deactivated user can still log in.
- AuthController.ForgotPassword: uses the intended hooked `findOne`; as written a deactivated user can still request a reset.
- AuthController.ResetPassword: uses the intended hooked `findOne`; as written a deactivated user can still reset the password.
- UserController.UpdateMe: the unique-email check compares the email as given; the schema's trimming and lower-casing of emails are not applied first.
- UserController.UpdateMe: uses the hooked find for `findOneAndUpdate`; whether the hook runs there as written depends on the hook list order.
- UserController.DeletedUserLockedOut: holds for the intended hook only; as written `protect`'s `findById` is unhooked and still finds the deactivated user.
- UserController.DeleteMeAsWritten: the first user is taken in stored order, standing for the database's natural order. The hook list order decides `hooked`; it is a parameter. A target that is neither an id nor undefined would be a CastError, which is not modelled.
- ReviewModel.CreateReview: models the intended behaviour of the two bugs under "## Findings": the default `createdAt` is the time of creation, and the recomputed average is rounded to a tenth. As written, every review gets the schema-load time and the average is stored unrounded (`ReviewModel.DefaultCreatedAtAsWritten`, `ReviewModel.CalcAverageRatingsAsWritten`).
- ReviewModel.FindOneAnd: the recomputation it triggers stores the average rounded to a tenth, as intended; as written the average is stored unrounded (see "## Findings").
- ReviewModel.FindOneAnd: ids in an update body are taken as already cast; an update body that names no path still runs the hooks, as a no-op `Update`.
- Validation errors list the failing paths in the order the schema declares them. Mongoose lists them in path-state order instead: unset required paths first, then the paths the body sets in its key order, then defaulted paths. So the order of the messages in a ValidationError, and in the 400 that `handleValidationErrorDB` builds from them, can differ from the source (`TourModel.TourErrors`, `ReviewModel.ReviewErrors`, `ReviewModel.UpdateErrorsOf`, `UserModel.UserErrors`, `UserController.UpdateErrors`). The set of messages is the same.
- ReviewModel.CreateReview: the post-save hook calls `calcAverageRatings` without `await`, so the 201 is sent without waiting for the tour update, and a failed recomputation becomes an unhandled rejection rather than an error response. The model performs the recomputation as part of the creation.
- AuthController.NullOwnerError: the TypeError's message text depends on the Node version; only its name and kind are promised.
- ReviewController.SetTourAndUserIds: when no user is logged in and the body names none, the model reports the TypeError. It does not model how `next` then proceeds.

## Findings

| source | as written | input that shows it | evidently intended | confidence | as-written member | corrected member |
|---|---|---|---|---|---|---|
| controllers/userController.js:56 | `deleteMe` passes `req.user.id`, but `protect` sets `req.user` to the scrubbed `_doc`, which has `_id` and no `id` | any logged-in user calling `deleteMe` who is not the first stored user: the condition `{_id: undefined}` admits every user, so the first one the query admits is deactivated instead of the caller, while the answer is 204 | deactivate the logged-in user by `req.user._id` | medium; not executed | UserController.DeleteMeAsWrittenDeactivatesFirst | UserController.DeletedUserLockedOut |
| models/userModel.js:79 | the pre-find hook is registered with the global regular expression `/^find/g`, whose `lastIndex` survives from one name to the next | the hook names `find`, `findOne` in that order: `find` matches and leaves `lastIndex` at 4, so `findOne` fails; a deactivated user is then returned by `findOne`, so login and `protect` still admit it | `/^find/`, registering the hook on every find | medium; not executed | UserModel.DeactivatedUserFoundAsWritten | UserModel.FindOne |
| models/tourModel.js:47 | the rounding setter `Math.round(val * 10) / 10` is declared on `ratingsQuantity`, a count it never changes | three reviews of one tour rated 5, 5 and 4: the tour stores the average 14/3 instead of 4.7 | round `ratingsAverage` to one decimal, as the setter's own worked example 4.6666 to 4.7 shows | high; not executed | ReviewModel.UnroundedAverageAsWritten | ReviewModel.CalcAverageRatingsMeaning |
| models/reviewModel.js:21 | `default: Date.now()` is evaluated once, when the schema is defined | two reviews created minutes apart after start-up both get the start-up time, so the default `-createdAt` sort cannot order them | `default: Date.now`, evaluated per new review | high; not executed | ReviewModel.CreatedAtIgnoresCreationTime | ReviewModel.CreatedAtIsCreationTime |
