# Smart business card backend — a Dafny model

This project models the core of an Express/Prisma backend for digital business cards:

- **Accounts and sessions.** Users register with email and password, or sign in with Google.
  - The server issues a short-lived access token (15 minutes) and a long-lived refresh token (7 days).
  - Both travel as HTTP-only cookies.
  - A request gate admits a request when it carries a live access token in the `accessToken` cookie or, when that cookie is absent or empty, in an `Authorization: Bearer` header.
- **Profiles (the cards).** A user owns profiles.
  - Each profile has a unique slug derived from the full name by a sequential probe: `john-doe`, `john-doe-1`, and so on.
  - A profile has ordered work experiences and social links. An update replaces them wholesale.
  - A profile has a QR code file, and deleting a profile cascades to its children and its views.
- **Analytics.**
  - Anonymous visitors record views of published profiles.
  - The owner reads counts over time windows, per source, per day, per device and per referring domain.
  - The owner can also export the views as CSV.

## Layout of the model

- `common.dfy` (`Common`): JavaScript values the handlers test.
  - `Option`, plus `Field` for the undefined/null/value distinction of a JSON body.
  - Truthiness, ASCII case mapping, `substring`, `startsWith`, `includes` and `split(',')[0]`.
  - Decimal rendering of a counter.
- `seqs.dfy` (`Seqs`): the array operations the handlers use.
  - `filter(...).length`, `filter`, `findFirst`, and a stable `sort` by a numeric key.
  - Counting into an object with `reduce`, and `slice`.
- `http.dfy` (`Http`): the `Set-Cookie` directives a response carries (a class updated in place), and what a browser's cookie jar becomes when it receives them.
- `jwt.dfy` (`Jwt`): `backend/src/utils/jwt.js`.
- `gate.dfy` (`Gate`): `backend/src/middleware/auth.js`.
- `session.dfy` (`Session`): `backend/src/controllers/auth.controller.js`, with the user table as a class.
- `slug.dfy` (`Slug`): `generateSlug` of `src/controllers/profile.controller.js`.
- `children.dfy` (`Children`): the experience and social-link tables as seen by one profile.
- `profiles.dfy` (`Profiles`): the profile store as a class and the profile handlers.
- `analytics.dfy` (`Analytics`): `src/controllers/analytics.controller.js`.

Each handler is a method over the tables it reads and writes.
- **Replies.** Its reply (status, error text, body) is a returned datatype value.
- **Atomic transactions.** Each Prisma `$transaction` is one atomic step of the model.
- **Parameters.** Outside services are parameters of the handler:
  - the clock (`now`, in milliseconds);
  - the `jsonwebtoken` signer, as a pair of encode/decode functions;
  - bcrypt and the validators, as a `Library` value of functions;
  - the outcome of writing the QR image (`qrOk`);
  - `extractDomain` and the ISO rendering of a date.
- **Assumed property.** The one property assumed of the signer is that decoding an encoded token gives it back (`Jwt.Sound`). Lemmas that need it state it as a precondition.

Two behaviours of the code are kept as written:
- `createProfile` does not retry a slug insert that hits the unique constraint; the transaction fails and the handler answers 500.
  - In the sequential model, slug allocation and insert are one step, so the probe always returns a free slug.
- The report and the CSV export test for mobile devices differently: `Analytics.DeviceTestsDisagree` exhibits an `Android` user agent that the report counts as mobile and the CSV labels `Desktop`.

## Model

| member | source | states |
|---|---|---|
| Common.ToLower | src/controllers/profile.controller.js:68 | each `A`-`Z` becomes the letter 32 code points up, every other character is kept in place, and no upper-case ASCII letter is left |
| Common.ToUpper | src/controllers/profile.controller.js:153 | each `a`-`z` becomes the letter 32 code points down, every other character is kept in place, and no lower-case ASCII letter is left |
| Common.ToLowerIdempotent | backend/src/controllers/auth.controller.js:40-56 | lower-casing an already lower-cased email changes nothing, so the stored email is its own lookup key |
| Common.ToLowerToUpper | backend/src/controllers/auth.controller.js:40 | an address typed in capitals lower-cases to the same key as the original |
| Seqs.Take | src/controllers/analytics.controller.js:31-33 | `substring(0, n)` and `slice(0, n)` give the prefix of exactly `n` elements, or the whole sequence when it is no longer than `n` |
| Common.BeforeComma | src/controllers/analytics.controller.js:11 | the first comma-separated part is the longest comma-free prefix |
| Common.NatToStringInjective | src/controllers/profile.controller.js:77 | distinct counters render as distinct decimal strings |
| Seqs.SortDesc | src/controllers/analytics.controller.js:128-129 | sorting by descending count is a permutation, keeps the length and is ordered |
| Seqs.SortDescStable | src/controllers/analytics.controller.js:128-129 | the sort is stable: for every key, the elements with that key come out in the order they went in |
| Seqs.TallyCorrect | src/controllers/analytics.controller.js:90-93 | the counting object has one entry per distinct key; each entry's count is the key's number of occurrences and is positive; the counts sum to the number of keys |
| Http.ApplyToJar | backend/src/utils/jwt.js:37-50 | a set cookie holds its value, a cleared cookie is gone, and every other cookie is unchanged |
| Jwt.AccessSecret | backend/src/utils/jwt.js:3 | the configured `JWT_SECRET` when it is non-empty, else the fixed fallback; never empty |
| Jwt.RefreshSecret | backend/src/utils/jwt.js:4 | the configured `JWT_REFRESH_SECRET` when it is non-empty, else the fixed fallback; never empty |
| Jwt.GenerateAccessToken | backend/src/utils/jwt.js:6-8 | the token decodes to the claims, signed under the access secret, expiring 900 seconds after issue |
| Jwt.GenerateRefreshToken | backend/src/utils/jwt.js:10-12 | the token decodes to the claims, signed under the refresh secret, expiring 604800 seconds after issue |
| Jwt.VerifyAccessToken | backend/src/utils/jwt.js:14-20 | claims exactly for an unexpired token signed under the access secret, and then that token's claims; null otherwise |
| Jwt.VerifyRefreshToken | backend/src/utils/jwt.js:22-28 | claims exactly for an unexpired token signed under the refresh secret, and then that token's claims; null otherwise |
| Jwt.Verify | backend/src/utils/jwt.js:14-28 | verification yields claims exactly when the text decodes to a token under the given secret that has not expired, and then yields that token's claims; every failure is null |
| Jwt.AccessTokenLifetime | backend/src/utils/jwt.js:6-8 | an access token verifies to its own claims before 900 seconds have passed, and to null from then on |
| Jwt.RefreshTokenLifetime | backend/src/utils/jwt.js:10-12 | a refresh token verifies to its own claims for 604800 seconds (7 days), and to null after that |
| Jwt.DefaultSecretsDiffer | backend/src/utils/jwt.js:3-4 | with neither secret configured, the two fallback secrets are different |
| Jwt.TokensNotInterchangeable | backend/src/utils/jwt.js:3-28 | when the secrets differ, an access token never passes refresh verification and a refresh token never passes access verification |
| Jwt.TokenCookieOptions | backend/src/utils/jwt.js:31-35 | both cookies are HTTP-only and SameSite=strict, and are Secure exactly in production |
| Jwt.SetTokenCookies | backend/src/utils/jwt.js:30-46 | the response gains exactly the two token cookie directives |
| Jwt.ClearTokenCookies | backend/src/utils/jwt.js:48-51 | the response gains exactly the two clearing directives |
| Jwt.CookieLifetimesMatchTokens | backend/src/utils/jwt.js:37-45 | each cookie's max-age in milliseconds equals its token's lifetime, and both share the Secure flag |
| Jwt.SetInstallsBothTokens | backend/src/utils/jwt.js:30-46 | after the browser applies the directives it holds both tokens and its other cookies are untouched |
| Jwt.ClearRemovesExactlyTokens | backend/src/utils/jwt.js:48-51 | after clearing, the browser has lost exactly the two token cookies |
| Gate.BearerToken | backend/src/middleware/auth.js:9-12 | a header yields a token exactly when it starts with `Bearer `, and the header is that prefix followed by the token |
| Gate.ExtractToken | backend/src/middleware/auth.js:6-13 | a non-empty cookie token wins; otherwise a non-empty bearer token is used; an empty token counts as none |
| Gate.Authenticate | backend/src/middleware/auth.js:3-38 | no token gives 401 "Access token not found"; a token that fails verification gives 401 "Invalid or expired access token"; otherwise the request proceeds as the token's user |
| Gate.AdmittedOnlyWithLiveAccessToken | backend/src/middleware/auth.js:22-38 | an admitted request's token decodes to a token for that user, under the access secret, that has not expired |
| Gate.CookieShadowsHeader | backend/src/middleware/auth.js:6-13 | an invalid cookie token is rejected even when the header holds a valid one |
| Gate.BearerHeaderAdmitted | backend/src/middleware/auth.js:8-12 | with no cookie, a live access token in a bearer header is found and verifies to its claims |
| Session.UserTable.Create | backend/src/controllers/auth.controller.js:54-66 | a new password account takes the next id and is appended, and the id counter advances by one; ids and emails stay unique |
| Session.UserTable.TouchLastLogin | backend/src/controllers/auth.controller.js:155-158 | only the user's `lastLoginAt` changes |
| Session.FindEmail | backend/src/controllers/auth.controller.js:39-41 | finds a user with the email, or none exactly when no user has it |
| Session.FindId | backend/src/controllers/auth.controller.js:214-221 | finds a user with the id, or none exactly when no user has it |
| Session.RegisterRejection | backend/src/controllers/auth.controller.js:14-48 | every rejection is a failure reply with status 400 or 409, and 409 is the duplicate-email reply given only when an account has the lower-cased email |
| Session.LoginRejection | backend/src/controllers/auth.controller.js:99-152 | every rejection is a failure reply with status 400 or 401; an accepted login names an account with the lower-cased email and a password hash that the comparison accepts |
| Session.Register | backend/src/controllers/auth.controller.js:9-95 | the first failing check's reply, with the table, its id counter and the cookies unchanged; otherwise the user is appended with the lower-cased email and the password's hash, the reply is 201 with the user and the access token, and both token cookies are set |
| Session.Login | backend/src/controllers/auth.controller.js:97-189 | the first failing check's reply, with nothing changed; otherwise only the user's `lastLoginAt` changes, the reply carries the user (no hash) and the access token, and both cookies are set |
| Session.Refresh | backend/src/controllers/auth.controller.js:191-256 | a missing cookie gives 401 and no cookie change; an invalid token or a vanished user gives 401 and clears both cookies; otherwise a fresh token pair for the stored user is issued and set |
| Session.Logout | backend/src/controllers/auth.controller.js:258-273 | always 200, and always clears both cookies |
| Session.GoogleCallback | backend/src/controllers/auth.controller.js:276-305 | with no user, a redirect to the error URL and no cookies; otherwise both tokens are set and the redirect is to the dashboard |
| Session.RegisterMissingFieldsFirst | backend/src/controllers/auth.controller.js:13-19 | a missing field is reported whatever the validators and the table say |
| Session.RegisterAcceptedIff | backend/src/controllers/auth.controller.js:13-48 | registration passes its checks exactly when all fields are present, both validators accept, and no account has the lower-cased email; hashing plays no part in the decision |
| Session.RegisterCheckOrder | backend/src/controllers/auth.controller.js:21-48 | a bad email gives the invalid-email reply; a good email with a bad password gives 400 "Invalid password" with the validator's message; a good email and password whose lower-cased email is taken gives the 409 duplicate reply |
| Session.DuplicateEmailRejected | backend/src/controllers/auth.controller.js:39-66 | after a registration, a second one whose email lower-cases to the same address gets the 409 duplicate reply |
| Session.RegisterSameEmailTwice | backend/src/controllers/auth.controller.js:9-66 | registering an address and then its upper-cased form: the first call creates the account, the second gets 409, and the table grows by exactly one row |
| Session.LoginHidesAccountExistence | backend/src/controllers/auth.controller.js:129-152 | an unknown email and a wrong password give the same 401 reply |
| Session.OAuthAccountNeverCompared | backend/src/controllers/auth.controller.js:136-145 | an account without a password hash gets the Google-login reply, whatever the comparison function |
| Session.RegisterThenLogin | backend/src/controllers/auth.controller.js:51-152 | an account just registered accepts a login with the same credentials, when bcrypt accepts a password against its own hash |
| Session.RefreshTwice | backend/src/controllers/auth.controller.js:191-248 | a live refresh token used twice at the same time succeeds both times with the same reply: it is not single-use |
| Slug.Squash | src/controllers/profile.controller.js:69 | the output is empty exactly when the input is, and ends with a hyphen exactly when the input ends with a non-alphanumeric |
| Slug.SquashShape | src/controllers/profile.controller.js:69 | the output is in the slug alphabet (`a-z`, `0-9`, `-`) and never has two hyphens in a row |
| Slug.SquashKeepsAlnum | src/controllers/profile.controller.js:69 | squashing keeps every letter and digit, in order, and adds none |
| Slug.SquashAppendWord | src/controllers/profile.controller.js:69 | a run of letters and digits appended to the input is appended unchanged to the output |
| Slug.SquashTwoWords | src/controllers/profile.controller.js:69 | two words joined by one separator become the two words joined by a hyphen |
| Slug.TrimLeading | src/controllers/profile.controller.js:70 | removes exactly the leading hyphens |
| Slug.TrimTrailing | src/controllers/profile.controller.js:70 | removes exactly the trailing hyphens |
| Slug.BaseSlugWellFormed | src/controllers/profile.controller.js:67-70 | a base slug is lower-case alphanumerics and single hyphens, with no hyphen at either end |
| Slug.BaseSlugKeepsAlnum | src/controllers/profile.controller.js:67-70 | the base slug keeps every alphanumeric of the lower-cased name, in order, and nothing else of it |
| Slug.SquashFixesWellFormed | src/controllers/profile.controller.js:69 | squashing leaves an already well-shaped string unchanged |
| Slug.BaseSlugIdempotent | src/controllers/profile.controller.js:67-70 | normalising a base slug again gives it back |
| Slug.Probe | src/controllers/profile.controller.js:72-77 | every probe starts with the base |
| Slug.ProbeInjective | src/controllers/profile.controller.js:72-79 | distinct counters give distinct probes, so the probe sequence never repeats |
| Slug.NextProbeUnseen | src/controllers/profile.controller.js:75-79 | the next probe is none of the earlier ones, so each iteration shrinks the set of taken slugs still to be met |
| Slug.GenerateSlug | src/controllers/profile.controller.js:66-82 | returns the first free probe of the name's base slug |
| Slug.FirstFreeProbe | src/controllers/profile.controller.js:72-81 | the loop ends, and returns a probe not in use while every earlier probe is in use |
| Slug.ProbeStep | src/controllers/profile.controller.js:75-78 | each iteration meets a taken slug not met before, so the taken slugs still ahead shrink and the loop ends |
| Slug.FirstFreeFound | src/controllers/profile.controller.js:72-81 | a free probe whose earlier probes are all taken is the one the loop stops at |
| Slug.FirstFreeUnique | src/controllers/profile.controller.js:72-81 | for given taken slugs there is only one first free probe |
| Slug.FirstFreeShape | src/controllers/profile.controller.js:72-81 | a free base is used as is; otherwise the slug is the base with a counter of at least 1 |
| Slug.SameNameTwice | src/controllers/profile.controller.js:72-79 | with nothing taken the base is used; with only the base taken the slug is the base with `-1` |
| Slug.JohnDoeBase | src/controllers/profile.controller.js:67-70 | "John Doe" normalises to "john-doe" |
| Slug.JohnDoeTwice | src/controllers/profile.controller.js:72-79 | "John Doe" gets "john-doe" when that is free, and "john-doe-1" when only "john-doe" is taken |
| Children.Numbered | src/controllers/profile.controller.js:136-144 | the created rows belong to the profile and item `i` gets `displayOrder` `i` |
| Children.Without | src/controllers/profile.controller.js:416-418 | no remaining row belongs to the profile |
| Children.NumberedIsNumbering | src/controllers/profile.controller.js:136-144 | created rows are numbered by position and belong to no other profile |
| Children.WithoutEffect | src/controllers/profile.controller.js:416-418 | deleting a profile's rows leaves it none and every other profile's rows unchanged |
| Children.AppendEffect | src/controllers/profile.controller.js:133-158 | inserting rows for a new profile gives it exactly those rows and changes no other profile's |
| Children.Replace | src/controllers/profile.controller.js:416-448 | after delete-then-create the profile's rows are exactly the new numbered rows, and every row of another profile is kept |
| Children.Unowned | src/controllers/profile.controller.js:345-358 | one child per row, in order, with its position and columns and without its profile |
| Children.ReplaceEffect | src/controllers/profile.controller.js:414-451 | delete-then-create gives the profile exactly the new rows, numbered by position, and changes no other profile's |
| Children.AllNumberedKept | src/controllers/profile.controller.js:414-451 | every profile's rows stay numbered 0, 1, 2, … across deletion, replacement and insertion |
| Profiles.PublicUrl | src/controllers/profile.controller.js:113 | the public URL is the frontend URL, a slash, then the slug |
| Profiles.ToExperience | src/controllers/profile.controller.js:136-143 | fields are copied, and an end date is kept only when given |
| Profiles.ToExperiences | src/controllers/profile.controller.js:136-144 | one row per input, in order |
| Profiles.ToLinks | src/controllers/profile.controller.js:151-156 | one row per input, in order, with the platform upper-cased and the URL kept |
| Profiles.NewProfile | src/controllers/profile.controller.js:118-131 | a new profile is published, owned by the caller, has the given slug and its public URL, and has no QR code yet |
| Profiles.Patch | src/controllers/profile.controller.js:403-412 | an undefined field is left alone, null clears it, and a value replaces it |
| Profiles.UpdateThrows | src/controllers/profile.controller.js:403-451 | the transaction fails exactly when `fullName`, `workExperiences` or `socialLinks` is null, or a given link has no platform; a body that sets nothing never fails |
| Profiles.ApplyUpdate | src/controllers/profile.controller.js:403-412 | only the five editable columns change; id, owner, slug, email, URLs and published flag are kept |
| Profiles.CurrentUrl | src/controllers/profile.controller.js:540 | the stored profile URL when set, else the public URL built from the slug |
| Profiles.FindOwned | src/controllers/profile.controller.js:389-391 | finds the profile with that id owned by the caller, or none exactly when there is no such profile |
| Profiles.FindPublished | src/controllers/profile.controller.js:263-273 | finds the published profile with that slug, or none exactly when there is no such profile |
| Profiles.FindPublishedId | src/controllers/analytics.controller.js:15-17 | finds the published profile with that id, or none exactly when there is no such profile |
| Profiles.ViewsOf | src/controllers/analytics.controller.js:73-76 | the profile's views are selected, all of them and nothing else |
| Profiles.ViewsWithout | src/controllers/profile.controller.js:498-501 | the cascade leaves none of the profile's views |
| Profiles.ViewsWithoutEffect | src/controllers/profile.controller.js:498-501 | after the cascade the profile has no views and every other profile keeps exactly its views |
| Profiles.RemoveAt | src/controllers/profile.controller.js:499-501 | removing a row shifts the later rows down by one |
| Profiles.ProfileStore.Slugs | src/controllers/profile.controller.js:76 | the set of slugs is exactly the slugs of the stored profiles |
| Profiles.ProfileStore.Insert | src/controllers/profile.controller.js:116-158 | appends the profile and its numbered children, advances the id counter, and keeps the store's invariant |
| Profiles.ProfileStore.SetRow | src/controllers/profile.controller.js:403-412 | replaces one profile row and nothing else |
| Profiles.ProfileStore.ReplaceExperiences | src/controllers/profile.controller.js:415-433 | replaces the profile's experiences and nothing else |
| Profiles.ProfileStore.ReplaceSocialLinks | src/controllers/profile.controller.js:436-451 | replaces the profile's social links and nothing else |
| Profiles.ProfileStore.Delete | src/controllers/profile.controller.js:498-501 | removes the profile with its experiences, links and views, and nothing else |
| Profiles.ProfileStore.AttachQr | src/controllers/profile.controller.js:177-184 | the newest profile gets its QR URL and its file exists |
| Profiles.ProfileStore.AppendView | src/controllers/analytics.controller.js:27-35 | appends one view and nothing else |
| Profiles.CreateProfile | src/controllers/profile.controller.js:85-214 | missing name or email gives 400 and no change; a link without a platform aborts the transaction with 500 and no change; otherwise the profile takes the first free probe of its base slug, its children are exactly the numbered inputs, the QR URL is set exactly when the image was written, and the reply is 201 with the new card: id, slug, public URL, QR URL, name, title, address, avatar, children and published flag, but no owner, email or phone |
| Profiles.InsertWithQr | src/controllers/profile.controller.js:116-188 | the profile row is appended with its numbered experiences and links, the QR URL is set and the file recorded exactly when the image was written, and nothing else changes |
| Profiles.UpdateProfile | src/controllers/profile.controller.js:374-478 | not owned gives 404 and no change; a body the transaction throws on gives 500 and no change; otherwise only the editable columns change, children given in the body replace the old ones and others stay, and no other profile changes |
| Profiles.DeleteProfile | src/controllers/profile.controller.js:481-516 | not owned gives 404 and no change; otherwise the profile, its children and its views are gone, its QR file is removed, and other profiles keep their rows, children and views |
| Profiles.RegenerateQRCode | src/controllers/profile.controller.js:519-564 | not owned gives 404; otherwise the old file is removed first; on success the row gets the QR URL and its current profile URL; on failure the reply is 500 and the row is unchanged |
| Profiles.GetProfileBySlug | src/controllers/profile.controller.js:259-305 | 404 exactly when no published profile has the slug; otherwise the public card of that profile, without email or owner |
| Profiles.GetProfileById | src/controllers/profile.controller.js:308-371 | 404 exactly when the caller owns no profile with that id; otherwise that profile's columns without its owner, and its children by position without their profile |
| Profiles.CreateTakesSlug | src/controllers/profile.controller.js:109-131 | a successful create uses the allocated slug, and afterwards the slugs in use are the earlier ones plus that slug |
| Profiles.SameNameScenario | src/controllers/profile.controller.js:109-131 | two profiles created under the same name in an empty store get the base slug and then the base with `-1` |
| Profiles.SlugsOfAppend | src/controllers/profile.controller.js:118-131 | appending a profile adds exactly its slug to the slugs in use |
| Profiles.RemoveAtKeyed | src/controllers/profile.controller.js:498-501 | deleting a profile keeps ids and slugs unique, and its id no longer appears |
| Profiles.DeletedPageIsGone | src/controllers/profile.controller.js:481-516 | after its owner deletes it, a profile's slug gives 404 |
| Analytics.ClientIp | src/controllers/analytics.controller.js:11 | the first forwarded address when it is non-empty, else the socket address |
| Analytics.Clip | src/controllers/analytics.controller.js:31-33 | a present value becomes its prefix of exactly `n` characters, or stays whole when no longer than `n`; an absent one stays absent |
| Analytics.RecordedView | src/controllers/analytics.controller.js:8-35 | the stored view has the upper-cased source, or `DIRECT` when none was sent, and the clipped address, user agent and referrer |
| Analytics.TrackView | src/controllers/analytics.controller.js:6-48 | an unknown or unpublished profile gives 404 and no change; a null source gives 500 and no change; otherwise exactly one view is appended |
| Analytics.Sources | src/controllers/analytics.controller.js:90-93 | one source per view, in order |
| Analytics.IsMobile | src/controllers/analytics.controller.js:113-116 | every view the CSV labels `Mobile` is mobile in the report, and a view without a user agent is not |
| Analytics.DesktopIsNotMobile | src/controllers/analytics.controller.js:113-117 | total minus mobile is exactly the number of views that are not mobile |
| Analytics.ReferrerDomains | src/controllers/analytics.controller.js:120-126 | entry `i` is the domain of the `i`-th view with a counted referrer, in view order |
| Analytics.TopReferrers | src/controllers/analytics.controller.js:127-131 | at most ten entries, by non-increasing count |
| Analytics.Buckets | src/controllers/analytics.controller.js:95-110 | thirty consecutive day keys ending today, each counting the window's views of that day |
| Analytics.BucketsStep | src/controllers/analytics.controller.js:103-110 | one more view raises its own day's bucket by one when it has a bucket, and changes nothing otherwise |
| Analytics.BucketsSum | src/controllers/analytics.controller.js:95-110 | the buckets together count exactly the views that fall in a bucket |
| Analytics.ViewsByDay | src/controllers/analytics.controller.js:95-110 | the two loops build exactly the day buckets |
| Analytics.DayBucketsWithinWindow | src/controllers/analytics.controller.js:96-110 | the buckets never count more than the 30-day total |
| Analytics.CountBounds | src/controllers/analytics.controller.js:79-87 | 7-day views ≤ 30-day views ≤ all views, and 7-day QR scans ≤ all QR scans ≤ all views |
| Analytics.SourcesCoverAllViews | src/controllers/analytics.controller.js:89-93 | the per-source counts are exact and positive, and sum to the number of views |
| Analytics.TopReferrersShape | src/controllers/analytics.controller.js:119-131 | ten referrers, or all of them when there are fewer, by non-increasing count, each with the exact positive count of its domain; no domain left off the list counts more than one on it; all domains together count exactly the views with a counted referrer |
| Analytics.NewestFirst | src/controllers/analytics.controller.js:73-76 | the profile's views, all of them, ordered newest first |
| Analytics.GetAnalytics | src/controllers/analytics.controller.js:51-159 | 404 exactly when the caller does not own the profile; otherwise each figure is its count over the profile's views, the windows nest, the per-source counts sum to the total, the day buckets stay within the 30-day count, mobile plus desktop is the total, and there are at most ten referrers |
| Analytics.DeviceType | src/controllers/analytics.controller.js:192 | `Mobile` exactly when the lower-cased user agent contains "mobile", otherwise `Desktop` |
| Analytics.JoinLinesNewlines | src/controllers/analytics.controller.js:201 | joining `n` newline-free lines puts exactly `n - 1` newlines in the text |
| Analytics.CsvLine | src/controllers/analytics.controller.js:192-198 | a line starts with the date and a comma and ends with a comma and the device type; with no referrer the third column is `Direct` |
| Analytics.CsvRows | src/controllers/analytics.controller.js:187-199 | the header, then one line per view, in order |
| Analytics.BuildCsvRows | src/controllers/analytics.controller.js:187-199 | the loop builds exactly the header and one line per view |
| Analytics.ExportAnalytics | src/controllers/analytics.controller.js:162-214 | 404 exactly when the caller does not own the profile; otherwise the file is named after the slug and today's date, and holds the joined lines |
| Analytics.CsvLineCount | src/controllers/analytics.controller.js:186-201 | when no field contains a newline, the file has one newline per view: a header plus one line per view |
| Analytics.DeviceTestsDisagree | src/controllers/analytics.controller.js:113-116 | an `Android` user agent is mobile in the report and `Desktop` in the CSV |

## Left out

- `getUserProfiles`, `uploadAvatar` and its `multer` storage: not part of the modelled core.
- The route files, the rate limiter, the seed script and the Swagger configuration: not part of the modelled core.
- Outside code is a parameter of the model:
  - the QR image writer (`qrcode.js`) is not part of this model; its success is the `qrOk` parameter, and its file name is taken to be `/uploads/qrcodes/<id>.png`;
  - `extractDomain` is not part of this model and is a parameter;
  - so is `validation.js` (the email and password validators), part of the `Library` parameter.
- Analytics.Clip: truncation counts Unicode scalar values (one string element each), not the UTF-16 code units `substring` counts. Input outside the Basic Multilingual Plane is therefore cut later than in the code, and never in the middle of a surrogate pair.
- Case mapping covers ASCII only; JavaScript's full Unicode `toLowerCase`/`toUpperCase` is not modelled.
- Dates are not parsed: experience start and end dates are kept as given, and "truthy end date" decides whether one is stored.
- ISO rendering of timestamps is a parameter. A day key is the timestamp divided by a day, which is the UTC date `toISOString` names.
- Concurrency is not modelled: each handler runs as one atomic step.
  - So the race between two creations of the same base slug (both probe, then both insert) is not represented.
  - Nor is the unique-constraint failure it would cause.
- Database and file-system failures other than those named in the contracts are not modelled, nor the 500 replies they lead to.
  - This includes a failing `profile.update` after the QR image was written in `createProfile`. In that case the reply would carry a QR URL that the row lacks.
- Profiles.DeleteProfile, Profiles.RegenerateQRCode: a failing unlink in `deleteQRCode` is swallowed (src/utils/qrcode.js:84-94). The file stays on disk, whereas the model removes the id from `qrFiles`; the reply is unaffected.
- Profiles.RegenerateQRCode: when the new image cannot be written, the row keeps its old `qrCodeUrl` although the old file was already deleted. The model states exactly this; it does not flag it as an error.
- Analytics.GetAnalytics: `viewsBySource` is the object's entries in insertion order. JavaScript lists integer-like keys first; a source string that is an array index is not ordered that way in the model.
- Analytics.TopReferrers: the counting object is a plain JavaScript object, and the model's tally treats every domain as an ordinary key. Three quirks are not modelled. A domain named `constructor` reads the inherited function, so its count becomes a string. A domain named `__proto__` is never counted. Integer-like domains are listed first, which changes which of equally counted domains make the top ten.
- Profiles.CreateProfile: the reply's `createdAt` is not modelled, as the model has no row timestamps.
- Profiles.GetProfileById: the reply's `createdAt` and `updatedAt`, and the children's own ids, are not modelled.
- Analytics.NewestFirst: views with equal timestamps keep their insertion order. The database's order among ties is unspecified.
- Children: the rows' own database ids and timestamps are not modelled; rows are identified by profile and position.
- Profiles.UpdateProfile: a `fullName` sent as null would violate the column's non-null constraint. The model treats it, with a null child array and a link without a platform, as a failing transaction (500, no change).
- Slug.GenerateSlug: a name with no letters or digits gives the empty base slug, exactly as the code does; the model does not reject it.
- Session: the catch-all 500 replies of the handlers come only from failures of the database or the libraries, which the model does not produce.
- Gate.Authenticate: the catch branches for `TokenExpiredError` and `JsonWebTokenError` are not reachable, because token verification returns null on every failure; the model has no such branch.
