# Pleura client core in Dafny

Pleura is a React Native streaming-catalogue client. It is built on Firebase for accounts and the user's "My List", and on the TMDB HTTP API for titles. This project models the client's decision logic and state changes, and proves what each piece of that logic promises:

- **Auth provider** (`AuthProvider`): the signed-in user and the live copy of their `users/{uid}` document. It also covers the writes the provider makes to that document:
  - a profile merge;
  - My-List `arrayUnion` and `arrayRemove`;
  - the sign-up document and the guest document.
- **TMDB service layer**:
  - image and trailer URLs;
  - how an HTTP response becomes a page, with the defaults for missing pagination fields;
  - the recommendations → similar fallback;
  - the discover query builder;
  - the streaming-server table.
- **Phone sign-in screen**: the step machine phone → otp → login_password | signup_password → profile_setup, with its validation gates and error messages.
- **Route guard** of the root layout, and the toast colours.
- **Comment section**: relative times, thread split, and the submit/reply form.
- **Hero carousel**: featured slice, rotation, colour theme, genre line, logo choice and the My-List toggle.
- **Phone field**: flag emoji, the ordered and searchable country list, and digit cleaning.
- **Profile screens**: the profile editor and the first-run profile form.
- **Smaller dispatch tables**: the media slider, search header, genre row, studio row, embedded player navigation filter and server picker.
- **Tunnel script**: the `.env` loader and ngrok command of the development tunnel script.

Every vendor call is an input to the model:

- Firebase Auth, Firestore, Storage and reCAPTCHA;
- `fetch`;
- libphonenumber;
- `localeCompare`;
- the clock;
- `Math.random`.

An `Sdk<T>` value is either the call's result or the error it threw. A TMDB `Response<T>` is `Ok(body)`, `NotOk(status)` or `Failed(error)`. Components that keep state are classes whose methods update their fields:

- `AuthProvider`, `LoginScreen`, `CommentForm`, `HeroCarousel`, `PhoneField`, `EditProfileForm`, `ProfileSetupForm` and `Picker`;
- the tunnel script's `.env` loop as a method with a loop.

The pure helpers are functions. Each state-changing method is specified against a transition function or stated outright; the lemmas prove the properties of those functions.

Module layout: one module per source file. Shared pieces live in four small modules:

- `Common`: Option, `Sdk`, `filter`/`slice`/`find`, and floor-division lemmas;
- `Strings`: JavaScript whitespace, `trim`, split/join, decimal text, and URI and form encoding;
- `Media`: the TMDB record;
- `Ui`: toasts and router navigations.

## Model

| member | source | states |
|---|---|---|
| AuthContext.MergeFields | context/AuthContext.tsx:130-135 | a `merge: true` write overwrites exactly the supplied fields and keeps every other stored field (or leaves it missing on a new document) |
| AuthContext.MergeNothing | context/AuthContext.tsx:130-135 | merging an update that supplies nothing leaves a stored document unchanged |
| AuthContext.MergeIdempotent | context/AuthContext.tsx:130-135 | merging the same update twice gives the same document as merging it once |
| AuthContext.ArrayUnion | context/AuthContext.tsx:137-148 | `arrayUnion(m)`: a list already holding `m` is returned as it was, otherwise `m` is appended at the end; a missing field counts as `[]` |
| AuthContext.ArrayUnionTwice | context/AuthContext.tsx:137-148 | adding the same movie twice equals adding it once, and a new movie appears exactly once |
| AuthContext.ArrayRemove | context/AuthContext.tsx:150-163 | `arrayRemove(m)`: no element equal to `m` remains, every other element is kept, and the list never grows |
| AuthContext.ArrayRemoveConcat | context/AuthContext.tsx:150-163 | removal is element by element: on a concatenation it is the concatenation of the two removals, so order is kept |
| AuthContext.ArrayRemoveSingle | context/AuthContext.tsx:150-163 | a single element goes exactly when it equals the removed value |
| AuthContext.ArrayRemoveAbsent | context/AuthContext.tsx:150-163 | removing a value that is not in the list returns the list unchanged |
| AuthContext.EntryWithId | context/AuthContext.tsx:152 | `find(m => m.id === id)`: the found entry is the first entry with that id; nothing is found exactly when no entry has the id |
| AuthContext.ListHasId | context/AuthContext.tsx:165-167 | `isInMyList` is true exactly when the document and its `myList` exist and some entry has the id |
| AuthContext.AddThenRemove | context/AuthContext.tsx:137-163 | for a movie whose id is not in the list, adding it makes it the entry found by its id, and removing that entry restores the original list |
| AuthContext.UniqueIdsPreserved | context/AuthContext.tsx:137-163 | adding a fresh id to a list with unique ids, or removing any entry, keeps the ids unique |
| AuthContext.FormatEmailRoundTrip | context/AuthContext.tsx:80 | the phone can be read back from the account e-mail `phone@pleura.app` |
| AuthContext.CredentialsEmail | context/AuthContext.tsx:82-90 | `signIn`/`signUp` throw "Please enter phone and password" exactly when the phone or password is empty; otherwise the e-mail is the whitespace-free phone at the app domain |
| AuthContext.PresetKeyInjective | context/AuthContext.tsx:112-119 | different avatar ids give different `avatar_N` keys |
| AuthContext.SignUpDoc | context/AuthContext.tsx:97-104 | the sign-up document holds the phone as typed, an empty name, surname and avatar, an empty list, no guest flag, and the given creation time |
| AuthContext.GuestDoc | context/AuthContext.tsx:108-124 | the guest document has `isGuest = true`, an empty list, an empty phone and surname, an avatar among `avatar_1..12`, a name "Guest N" with 1000 ≤ N ≤ 9999, and the given creation time |
| AuthContext.GuestNamesDistinct | context/AuthContext.tsx:113-117 | different suffix draws give different guest names |
| AuthContext.AuthProvider.constructor | context/AuthContext.tsx:50-53 | the provider starts signed out, without a document, and loading |
| AuthContext.AuthProvider.IsInMyList | context/AuthContext.tsx:165-167 | true exactly when the live document has a `myList` holding an entry with the id |
| AuthContext.AuthProvider.OnAuthStateChanged | context/AuthContext.tsx:55-75 | the user becomes the current one; signing out clears the document and ends loading; signing in waits for the snapshot |
| AuthContext.AuthProvider.OnUserDocSnapshot | context/AuthContext.tsx:61-69 | the live copy becomes the stored document (or none if it does not exist) and loading ends |
| AuthContext.AuthProvider.UpdateUserProfile | context/AuthContext.tsx:130-135 | no change and no error without a user; otherwise the write's outcome is returned, a rejected write changes nothing, and a successful one changes only the user's document, to the merge of the update |
| AuthContext.AuthProvider.AddToMyList | context/AuthContext.tsx:137-148 | no change and no error without a user; otherwise the write's outcome is returned, a rejected write changes nothing, and a successful one makes the stored `myList` its `arrayUnion` with the movie and changes nothing else |
| AuthContext.AuthProvider.RemoveFromMyList | context/AuthContext.tsx:150-163 | no change and no error without a user, a live copy or an entry with that id; a `TypeError` and no change when the live copy has no `myList`; otherwise the write's outcome is returned, a rejected write changes nothing, and a successful one removes from the stored list every element equal to the first live entry with the id |
| AuthContext.AuthProvider.SignUp | context/AuthContext.tsx:88-106 | a missing phone or password throws before any account is created; a failed creation throws its error; otherwise the document write's outcome is returned, a rejected write changes nothing, and a successful one stores the empty profile with the phone as typed under the new uid |
| AuthContext.AuthProvider.ContinueAsGuest | context/AuthContext.tsx:108-124 | a failed anonymous sign-in changes nothing and throws its error; otherwise the document write's outcome is returned, a rejected write changes nothing, and a successful one stores the guest document under the new uid |
| Tmdb.ImageUrl | services/tmdb.ts:44-50 | no URL for a missing or empty path; otherwise the URL starts with the image base and ends with the path |
| Tmdb.ImageUrlRoundTrip | services/tmdb.ts:44-50 | the image URL determines both the size and the path it was built from |
| Tmdb.Shape | services/tmdb.ts:77-81 | a successful page keeps the given results; a missing result count becomes 0 and a missing or zero page count becomes 1, any other count is kept; a successful page never reports zero pages |
| Tmdb.Search | services/tmdb.ts:55-159 | a whitespace-only query or a failed request gives `{[],0,0}`; zero pages mark exactly those cases; on success the page is `Shape` of the body with the body's results, which the multi search narrows, in order, to the movie and tv items |
| Tmdb.SearchMultiKeepsOrder | services/tmdb.ts:148-151 | the multi-search filter keeps relative order: filtering a split list is the concatenation of the filtered halves |
| Tmdb.FetchFromTmdb | services/tmdb.ts:515-536 | a not-ok or failed request gives the empty page; zero pages mark exactly those; on success the page is `Shape` of the body with its poster-bearing items in order |
| Tmdb.FetchByCompanyPaginated | services/tmdb.ts:633-662 | on error the page is `{[], 0 results, 1 page}`, so the page count is never zero; on success the page is `Shape` of the body with the body's results |
| Tmdb.PageCount | services/tmdb.ts:699-701 | `Math.ceil(n / 20)` is the number `p` of 20-item pages with `20(p-1) < n ≤ 20p` |
| Tmdb.ListCount | services/tmdb.ts:700-702 | the count is `total_results` when non-zero, else the number of items, else 0 |
| Tmdb.FetchList | services/tmdb.ts:677-708 | on error `{[], 0, 1}`; on success the count is `total_results`, else the number of items, else 0, the page count is its ceiling over 20, and the results are the poster-bearing items in order |
| Tmdb.Recommended | services/tmdb.ts:294-332 | at most 10 poster-bearing titles; the recommendations when they have any; a thrown recommendations request gives []; otherwise the similar titles when that request is ok, else [] |
| Tmdb.RecommendedIgnoresSimilar | services/tmdb.ts:304-315 | when the recommendations are used, the similar response does not affect the result |
| Tmdb.RecommendedFromSources | services/tmdb.ts:304-327 | every recommended title comes from an ok recommendations or similar body |
| Tmdb.ShapeCredits | services/tmdb.ts:192-219 | credits succeed exactly for an ok response: the cast is the first ten cast members (all of them if fewer) and the crew is the whole crew; a not-ok status throws `TMDB API error: status`; a thrown error is rethrown |
| Tmdb.TrailerUrl | services/tmdb.ts:253-259 | no URL exactly when no video is a YouTube trailer or teaser; otherwise the watch URL of the first such video |
| Tmdb.ServerForKey | services/tmdb.ts:24-31 | `STREAMING_SERVERS[key]` is the server with that key, or missing exactly when no server has it |
| Tmdb.ServerUrlInjective | services/tmdb.ts:24-31 | each server's URL names one title: equal URLs mean equal ids |
| Tmdb.DiscoverQueryDefaults | services/tmdb.ts:732-737 | the discover query's `page` is the given page when non-zero, else 1; `sort_by` the given order or `popularity.desc`, and `include_adult` is `false` |
| Tmdb.DiscoverQueryFilters | services/tmdb.ts:738-742 | `with_genres` and `with_companies` are present exactly when truthy, and then hold the value's text |
| Tmdb.DiscoverQueryKeywords | services/tmdb.ts:791-793 | `with_keywords` is present exactly for TV with a non-empty value, and then holds that value |
| Tmdb.Discover | services/tmdb.ts:726-769 | a failed discover request gives `{[],0,0}`; zero pages mark exactly failure; on success the page is `Shape` of the body with the body's results |
| Login.FakeEmailMatchesProvider | app/auth/login.tsx:183-185 | for a whitespace-free phone the screen's fake e-mail equals the one the auth provider derives |
| Login.PhoneGate | app/auth/login.tsx:214-233 | no toast exactly for a non-empty phone starting with "+" of at least 10 characters; otherwise "Please enter your phone number" or the format error |
| Login.SendErrorMessage | app/auth/login.tsx:311-318 | the three error codes map to their fixed messages; every other code shows the vendor message |
| Login.AfterSendOtp | app/auth/login.tsx:213-328 | sending a code moves only to the otp step and keeps the password, otp, name, forgot flag and phone; past the phone gate, a missing verifier ends loading and adds the reCAPTCHA toast on the web only, and a ready verifier leads to `AfterSent` |
| Login.AfterSent | app/auth/login.tsx:257-327 | a failed send ends loading with the "Error Sending Code" toast carrying `SendErrorMessage`; a sent code moves to the otp step, ends loading, adds the code-sent toast for the phone, and stores the confirmation on the web or the verification id natively; nothing else changes |
| Login.SendOtpRejects | app/auth/login.tsx:214-233 | a phone that fails the gates changes nothing but the toasts |
| Login.SendOtpReachesOtp | app/auth/login.tsx:235-304 | the otp step is reached exactly when a plausible phone's code was sent with the verifier ready |
| Login.CheckUserRoutes | app/auth/login.tsx:330-376 | the password step is reached exactly for a found user with a sign-in method; every other case, a failed lookup included, is `sendOTP`, which clears the forgot flag unless one of the two lookups threw |
| Login.AfterVerifyOtp | app/auth/login.tsx:378-441 | an empty code only adds "Enter OTP"; on the web a missing confirmation asks for a new code; a failed confirmation or document read ends loading and adds "Verification Failed" with the error's message; otherwise loading ends and the step becomes signup_password unless the user has a profile outside the forgot flow |
| Login.VerifyOtpRoutes | app/auth/login.tsx:420-431 | after a confirmed code the step stays exactly when the document has a name and this is not the forgot flow, and becomes signup_password otherwise |
| Login.AfterLogin | app/auth/login.tsx:443-464 | the step never changes; an empty password only adds "Enter Password"; a successful sign-in only ends loading; a failed one ends loading and adds "Login Failed" with the error's message |
| Login.AfterSetPassword | app/auth/login.tsx:466-539 | a short or mismatched password only adds its toast; without a user, "No user signed in"; in the forgot flow "Password updated" or the update's error, with the step kept; otherwise profile_setup when the link outcome succeeds, else its error toast; loading ends in every case past the two checks |
| Login.LinkOutcome | app/auth/login.tsx:506-520 | a successful link or an e-mail collision counts as linked; an existing credential falls back to the password update's outcome; any other link error stands |
| Login.SetPasswordRoutes | app/auth/login.tsx:489-529 | the forgot flow never moves the step; otherwise profile_setup is reached exactly when linking succeeds, the e-mail collision is ignored, or an existing credential's password update succeeds; any other link error is shown |
| Login.ProfileDoc | app/auth/login.tsx:562-569 | the profile document has the trimmed name, the phone, the chosen avatar, an empty list, `isGuest = false`, no surname, and the given creation time |
| Login.ProfileSetupWrite | app/auth/login.tsx:546-598 | a write happens exactly for a non-blank name with a signed-in user and a successful write; it is `ProfileDoc` of the screen under that user's uid, with the trimmed non-blank name |
| Login.AfterProfileSetup | app/auth/login.tsx:546-598 | a blank name only adds "Please enter your name"; a missing user or a failed write ends loading and adds "Failed to save profile"; a saved profile only ends loading; the step never moves |
| Login.AfterResetStep | app/auth/login.tsx:600-607 | reset goes to the phone step and clears password, confirmation, otp, name and forgot flag; the phone fields, `verificationId`, avatar, loading flag, web confirmation and toasts are kept |
| Login.LoginScreen.constructor | app/auth/login.tsx:58-68 | the screen starts in its initial state: phone step, empty fields, `avatar_1` |
| Login.LoginScreen.SendOtp | app/auth/login.tsx:213-328 | the new screen state is `AfterSendOtp` of the old one |
| Login.LoginScreen.Deliver | app/auth/login.tsx:257-327 | the new screen state is `AfterSent` of the old one: the send error toast with loading off, or the otp step holding the confirmation (web) or verification id (native) with the code-sent toast |
| Login.LoginScreen.HandleCheckUser | app/auth/login.tsx:330-376 | the new screen state is `AfterCheckUser` of the old one |
| Login.LoginScreen.SendAfterCheck | app/auth/login.tsx:357-375 | the new screen state is `sendOTP` run from the old one with loading on and the forgot flag cleared unless a lookup threw, and loading off after |
| Login.LoginScreen.VerifyOtp | app/auth/login.tsx:378-441 | the new screen state is `AfterVerifyOtp` of the old one |
| Login.LoginScreen.HandleLogin | app/auth/login.tsx:443-464 | the new screen state is `AfterLogin` of the old one |
| Login.LoginScreen.HandleSetPassword | app/auth/login.tsx:466-539 | the new screen state is `AfterSetPassword` of the old one |
| Login.LoginScreen.HandleForgotPassword | app/auth/login.tsx:541-544 | the forgot flag is set, then the code is sent |
| Login.LoginScreen.HandleProfileSetup | app/auth/login.tsx:546-598 | the document written is `ProfileSetupWrite` and the new screen state is `AfterProfileSetup` of the old one |
| Login.LoginScreen.ResetStep | app/auth/login.tsx:600-607 | the new screen state is `AfterResetStep` of the old one |
| Layout.Redirect | app/_layout.tsx:13-30 | nothing while loading; login exactly for a signed-out user outside the auth group; profile-setup exactly for a nameless signed-in user in the auth group not already there; home exactly for a named signed-in user in the auth group; never a redirect for a signed-in user outside it |
| Layout.RedirectSettles | app/_layout.tsx:13-30 | at the route a redirect leads to, with the same session, the guard redirects no further |
| Layout.BorderColor | app/_layout.tsx:64-69 | success is #4ade80, error #ef4444, anything else #ab8bff |
| Comments.UnitPlural | components/CommentSection.tsx:70-76 | the "s" suffix appears exactly when the count exceeds one |
| Comments.TimeAgoThresholds | components/CommentSection.tsx:58-77 | the nested floor divisions report the largest unit the elapsed time reaches (years ≥ 365 days, months ≥ 30 days, days, hours, minutes) with the direct quotient; under a minute, or in the future, it reads "just now" |
| Comments.RootComments | components/CommentSection.tsx:278 | the roots are exactly the comments with a falsy parent id |
| Comments.Replies | components/CommentSection.tsx:279-280 | the replies to `p` are exactly the comments whose parent id is `p` |
| Comments.ThreadsPartition | components/CommentSection.tsx:278-280 | each comment is a root or a reply to the parent it names, never both |
| Comments.ThreadsKeepOrder | components/CommentSection.tsx:278-280 | both lists keep snapshot order: splitting the snapshot splits each list |
| Comments.GuestsAreNotVerified | components/CommentSection.tsx:218 | a guest document never counts as verified |
| Comments.CommentDoc | components/CommentSection.tsx:247-256 | a posted comment has the trimmed, non-blank text, the reply target as its parent, rating 0 when replying, and "Anonymous"/"avatar_1" defaults |
| Comments.CommentForm.constructor | components/CommentSection.tsx:211-215 | the form starts empty with rating 0 and no reply target |
| Comments.CommentForm.HandleSubmit | components/CommentSection.tsx:242-265 | nothing happens unless the trimmed text is non-empty and a user with a document exists; otherwise that comment is sent, a success resets text, rating and reply target, and a failure keeps them |
| Comments.CommentForm.HandleReply | components/CommentSection.tsx:267-270 | the reply target is set and the rating reset to 0 |
| Comments.CommentForm.CancelReply | components/CommentSection.tsx:272-275 | the reply target is cleared and the rating reset to 0 |
| Hero.ThemeTables | components/HeroSection.tsx:23-62 | every themed genre has a name, names are non-empty, and every theme has three stops ending in the page background |
| Hero.ColorsForMovie | components/HeroSection.tsx:93-100 | the theme of the first genre id when it has one, and the default colours when there are no genres or the id is unknown |
| Hero.KnownGenres | components/HeroSection.tsx:146-148 | the names of the known ids only, each non-empty; empty exactly when no id is known |
| Hero.KnownGenresConcat | components/HeroSection.tsx:146-148 | naming works id by id: the names of a concatenation are the names of each part, in order |
| Hero.KnownGenresSingle | components/HeroSection.tsx:146-148 | a single id gives its name if `GENRE_MAP` has one, else nothing |
| Hero.KnownGenresHead | components/HeroSection.tsx:146-148 | the first name is that of the first known id |
| Hero.GenreLineShape | components/HeroSection.tsx:145-149 | the genre line is empty exactly when none of the first four ids is known, and otherwise starts with the name of the first known id among them |
| Hero.DisplayTitle | components/HeroSection.tsx:144 | `title`, else `name`, else "Unknown"; never empty |
| Hero.ChooseLogo | components/HeroSection.tsx:106-107 | no logo exactly for a missing or empty list; otherwise the first English logo, or the first logo when none is English |
| Hero.LogoUrl | components/HeroSection.tsx:103-117 | a logo URL exactly when the request succeeds with logos, then the w500 base plus the chosen logo's path |
| Hero.RotateTimesIsMod | components/HeroSection.tsx:120-124 | after `k ≥ 1` interval steps the index is `(i + k) mod n`, always within the featured list |
| Hero.RotateFullRound | components/HeroSection.tsx:120-124 | `n` steps return to the starting index |
| Hero.HeroCarousel.constructor | components/HeroSection.tsx:82-83 | the carousel starts at index 0 without a logo |
| Hero.HeroCarousel.Featured | components/HeroSection.tsx:89 | the featured titles are the first five, or all of them when there are fewer |
| Hero.HeroCarousel.Current | components/HeroSection.tsx:90 | a current title exactly when the index is within the featured list |
| Hero.HeroCarousel.Tick | components/HeroSection.tsx:120-124 | the index advances by one, wrapping, and a title stays shown |
| Hero.HeroCarousel.HandleDotPress | components/HeroSection.tsx:189-190 | the pressed dot's title becomes current |
| Hero.HeroCarousel.FetchLogo | components/HeroSection.tsx:103-117 | the stored logo URL is `LogoUrl` of the request outcome |
| Hero.HeroCarousel.HandleMyList | components/HeroSection.tsx:169-187 | nothing without a title or a user; a "Restricted" toast for a guest; otherwise the write's outcome is returned, a rejected write changes nothing, and after a successful one the title has left the stored list if it is in the live one and joined it otherwise, with other users' documents untouched |
| PhoneInput.FlagEmoji | components/PhoneInput.tsx:46-52 | one code point per character, `127397 +` the upper-cased character |
| PhoneInput.FlagRoundTrip | components/PhoneInput.tsx:46-52 | the flag reads back as the upper-cased code |
| PhoneInput.FlagIsRegionalIndicators | components/PhoneInput.tsx:46-52 | letters become regional indicator symbols U+1F1E6 .. U+1F1FF |
| PhoneInput.FlagIgnoresCase | components/PhoneInput.tsx:47-48 | letter case does not change a flag |
| PhoneInput.CountryName | components/PhoneInput.tsx:137 | the table's name, else the code itself |
| PhoneInput.MakeCountry | components/PhoneInput.tsx:135-140 | an entry has the code, its name, `+` and the calling code, and the flag that reads back as the code |
| PhoneInput.MakeCountries | components/PhoneInput.tsx:133-140 | one entry per listed code, in order |
| PhoneInput.CommonIndex | components/PhoneInput.tsx:143-144 | `indexOf` in the common list: the first position holding the code, or -1 exactly when absent |
| PhoneInput.CompareIsKeyOrder | components/PhoneInput.tsx:141-149 | the source comparator agrees with the order on (tier, position or collated name) in both directions |
| PhoneInput.SortBy | components/PhoneInput.tsx:141-149 | the sort returns a permutation of its input, sorted by the key |
| PhoneInput.AllCountries | components/PhoneInput.tsx:132-150 | a permutation of the listed countries with the common ones first, those in common-list order, the rest by collated name |
| PhoneInput.FilteredCountries | components/PhoneInput.tsx:153-162 | an empty search gives every country; otherwise exactly those whose lower-cased name or code, or dial code, contains the lower-cased query |
| PhoneInput.FilteredCountriesConcat | components/PhoneInput.tsx:153-162 | the search keeps countries one by one: on a concatenated list it is the concatenation of the two searches |
| PhoneInput.FilteredCountriesSingle | components/PhoneInput.tsx:153-162 | a single country stays exactly when the query is empty or it matches |
| PhoneInput.FilteredStaysSorted | components/PhoneInput.tsx:153-162 | search results keep the sorted order |
| PhoneInput.SelectedCountryData | components/PhoneInput.tsx:164-166 | the first country with the selected code, or none exactly when none has it |
| PhoneInput.Formatted | components/PhoneInput.tsx:176-182 | the E.164 form when the parser recognises the number, else the number itself |
| PhoneInput.PhoneChange | components/PhoneInput.tsx:169-183 | the raw value is `KeepDigits` of the text, the digits typed in order; the formatted value is the dial code (or "undefined") plus those digits, as formatted |
| PhoneInput.PhoneChangeCleanIdempotent | components/PhoneInput.tsx:171-172 | cleaning already-clean input changes nothing |
| PhoneInput.PhoneField.constructor | components/PhoneInput.tsx:126-129 | the default country is selected, the picker closed and the search empty |
| PhoneInput.PhoneField.OpenPicker | components/PhoneInput.tsx:203-206 | the picker opens |
| PhoneInput.PhoneField.ClosePicker | components/PhoneInput.tsx:228-234 | the picker closes |
| PhoneInput.PhoneField.SetSearchQuery | components/PhoneInput.tsx:243 | the search text is the typed query |
| PhoneInput.PhoneField.HandleCountrySelect | components/PhoneInput.tsx:185-198 | the country is selected, the picker closed and cleared so it lists every country, and the number is reformatted with the new dial code |
| ProfileEdit.PresetIdFrom | app/profile/edit.tsx:42 | the preset search finds an id in range whose key is the given one, or proves that no id from there on has that key |
| ProfileEdit.PresetId | app/profile/edit.tsx:22-42 | a key names a preset id exactly when it is one of `avatar_1` .. `avatar_12` |
| ProfileEdit.PresetIdOfKey | app/profile/edit.tsx:22-42 | looking up a preset's own key finds that preset |
| ProfileEdit.GetAvatarSource | app/profile/edit.tsx:38-44 | a URI exactly for keys starting with "http", the matching asset exactly for preset keys, otherwise null |
| ProfileEdit.PresetShowsItsAsset | app/profile/edit.tsx:22-44 | every preset key shows its own bundled image |
| ProfileEdit.Initials | app/profile/edit.tsx:59-64 | both first letters upper-cased when both names are set, else the name's first letter, else "U" |
| ProfileEdit.PreviewOf | app/profile/edit.tsx:192-205 | a custom picture wins, then the avatar's source, then the initials |
| ProfileEdit.UploadPath | app/profile/edit.tsx:74-75 | the path is `avatars/profile_{uid}_{time}.jpg` |
| ProfileEdit.UploadPathsDistinct | app/profile/edit.tsx:74-75 | one user's uploads at different times never share a path |
| ProfileEdit.AvatarToSave | app/profile/edit.tsx:126-134 | the upload's URL when a custom picture was picked and the URL is non-empty, the selected key otherwise; "Failed to upload image" exactly when a picked picture's upload throws |
| ProfileEdit.Save | app/profile/edit.tsx:114-169 | a blank name only shows "Name is required"; no user does nothing; a failed upload shows the upload error toast; an update is sent exactly for a non-blank name, a user and (with a picture) a successful upload; a failed update shows its error toast and stays; the screen goes back exactly after a successful update, with the success toast |
| ProfileEdit.SaveError | app/profile/edit.tsx:160-166 | the catch block's error toast shows the error's message, or "Failed to save profile" when it has none |
| ProfileEdit.CustomPictureOverridesLaterPreset | app/profile/edit.tsx:107-111 | a preset chosen after a custom picture still saves the picture's URL |
| ProfileEdit.EditProfileForm.constructor | app/profile/edit.tsx:50-56 | the form starts from the live document's name, surname and avatar (default `avatar_1`) |
| ProfileEdit.EditProfileForm.PickImage | app/profile/edit.tsx:87-112 | a refused permission only shows its toast; a picked picture becomes the custom image and clears the preset; a cancelled picker changes nothing |
| ProfileEdit.EditProfileForm.HandleAvatarSelect | app/profile/edit.tsx:171-173 | the pressed preset becomes the selected avatar |
| ProfileEdit.EditProfileForm.HandleSave | app/profile/edit.tsx:114-169 | the update sent, the toast shown and the navigation are those of `Save` on the form's fields |
| ProfileSetup.AvatarKeyForIndex | app/auth/profile-setup.tsx:18-31 | index `i` of the grid gives `avatar_{i+1}`, and an index outside the grid gives nothing |
| ProfileSetup.AvatarKeysDistinct | app/auth/profile-setup.tsx:54-58 | every grid position saves a preset key, different positions different keys |
| ProfileSetup.DefaultAvatarKey | app/auth/profile-setup.tsx:36 | an untouched form saves `avatar_1` |
| ProfileSetup.Save | app/auth/profile-setup.tsx:42-71 | a blank name or surname only shows its toast; an update with the untrimmed names and the grid's key is sent exactly for two non-blank names and a grid position; the app is entered exactly after a successful update, and otherwise "Failed to update profile" shows |
| ProfileSetup.ProfileSetupForm.constructor | app/auth/profile-setup.tsx:34-37 | the form starts empty with the first avatar selected |
| ProfileSetup.ProfileSetupForm.SelectAvatar | app/auth/profile-setup.tsx:108 | the tapped position becomes the selection |
| ProfileSetup.ProfileSetupForm.HandleSave | app/auth/profile-setup.tsx:42-71 | the update sent, the toast shown and the navigation are those of `Save` on the form's fields |
| MediaSlider.HandlePress | components/MediaSlider.tsx:35-47 | the TV detail route exactly for a TV slider or TV item, the movie route otherwise, with the id and poster path |
| MediaSlider.TvSliderOpensTvPages | components/MediaSlider.tsx:36 | in a TV slider every press opens a TV page whatever the item's media type |
| MediaSlider.OpensIsAFunction | components/MediaSlider.tsx:57-64 | every known slider title opens exactly one category |
| MediaSlider.HandleSeeAll | components/MediaSlider.tsx:49-76 | a given `onSeeAll` always wins; otherwise a push exactly for a title of the table, to the search screen with its category, the kind and the time |
| MediaSlider.SeeAllChangesWithTime | components/MediaSlider.tsx:72 | presses at different instants push different navigations |
| SearchHeader.ShowBackButton | components/SearchHeader.tsx:39-41 | no back button in the browse grid, always in genre mode, and in search mode exactly with a genre, studio or category filter |
| SearchHeader.ShowResultsHeader | components/SearchHeader.tsx:88 | the results header is shown exactly outside browse mode, with loaded titles, when not loading |
| SearchHeader.ResultsTitle | components/SearchHeader.tsx:96-98 | the category's name in genre mode with a category, else the non-empty result title, else "Results" |
| SearchHeader.ResultsCount | components/SearchHeader.tsx:103-105 | the locale-formatted server total exactly when it is positive, else the number of loaded titles |
| SearchHeader.BrowseHasNoResultsChrome | components/SearchHeader.tsx:39-41 | the browse grid has neither a back button nor a results header |
| SearchHeader.ShownCountIsPositive | components/SearchHeader.tsx:88-105 | whenever the results header shows, its count is positive |
| SearchHeader.BackButtonMarksDrillDown | components/SearchHeader.tsx:39-41 | a plain search has no back button, and the same search with any filter has one |
| GenreSection.SearchType | components/GenreSection.tsx:93 | "movie" exactly for the movie tab, "tv" for the TV and anime tabs |
| GenreSection.HandleGenrePress | components/GenreSection.tsx:88-96 | a press goes to "/search" with exactly the genre id and the search type |
| GenreSection.GenreListsAreDistinct | components/GenreSection.tsx:40-86 | every tab's list has distinct ids and distinct names |
| GenreSection.GenrePressIdentifiesCard | components/GenreSection.tsx:85-96 | different cards of one tab lead to different searches |
| GenreSection.SciFiIdsDiffer | components/GenreSection.tsx:40-74 | movie Sci-Fi is 878 and TV Sci-Fi is 10765, each only in its own list |
| CompanySection.HandleStudioPress | components/CompanySection.tsx:130-142 | a press goes to "/search" with exactly the studio name and `listId` for list studios or `companyId` for company studios |
| CompanySection.ListStudiosAreExactly | components/CompanySection.tsx:40-125 | exactly DC Movies, Hulu and Apple TV+ are searched as lists |
| CompanySection.StudiosAreDistinct | components/CompanySection.tsx:40-125 | the studio keys and ids are unique |
| CompanySection.PressIdentifiesStudio | components/CompanySection.tsx:130-142 | two different studios never lead to the same search |
| EmbedPlayer.Render | components/EmbedPlayer.tsx:10-23 | an iframe exactly on the web, a WebView elsewhere, both for the embed URL |
| EmbedPlayer.ShouldStartLoad | components/EmbedPlayer.tsx:36-48 | the player's own URL always loads, clicks elsewhere are blocked and other navigations load |
| EmbedPlayer.OnlyClickAwayIsBlocked | components/EmbedPlayer.tsx:36-48 | a request is blocked exactly when it is a click to another URL |
| EmbedPlayer.Allows | components/EmbedPlayer.tsx:10-48 | an iframe applies no filter; a WebView applies the navigation filter |
| EmbedPlayer.ClickAwayBlockedOffWeb | components/EmbedPlayer.tsx:10-48 | a click away from the player proceeds exactly on the web |
| ServerSelector.ShownKeys | components/ServerSelector.tsx:36 | five buttons with distinct keys, in the table's declaration order autoembed, vidsrc, twoembed, superembed, smashystream, each naming its server |
| ServerSelector.EveryServerShown | components/ServerSelector.tsx:36 | every server of the table has a button |
| ServerSelector.ActiveServer | components/ServerSelector.tsx:19-21 | the parent's non-empty choice, else the picker's own |
| ServerSelector.OneHighlightedButton | components/ServerSelector.tsx:19-36 | without a parent choice exactly the picker's own server is highlighted; at most one button ever is |
| ServerSelector.BrowserUrl | components/ServerSelector.tsx:30-33 | the browser opens exactly for a truthy id, at the server's URL for it |
| ServerSelector.BrowserUrlNamesTheTitle | components/ServerSelector.tsx:30-33 | different titles open different pages of one server |
| ServerSelector.Picker.constructor | components/ServerSelector.tsx:19 | the picker starts on autoembed with nothing selected or opened |
| ServerSelector.Picker.HandleServerPress | components/ServerSelector.tsx:23-34 | with `onSelect` the key is handed to it and the picker's own server is kept; without, the picker's server becomes the key; the browser opens exactly for a truthy id |
| StartTunnel.PlainLine | scripts/start-tunnel.js:9-13 | `KEY=VALUE` assigns the trimmed value to the trimmed key |
| StartTunnel.SecondEqualsDropsTheRest | scripts/start-tunnel.js:10 | anything after a second "=" is dropped |
| StartTunnel.LinesWithoutValue | scripts/start-tunnel.js:10-11 | a line with an empty value or no "=" assigns nothing |
| StartTunnel.LoadEnv | scripts/start-tunnel.js:7-15 | the line loop leaves the environment the file's assignments applied in order give |
| StartTunnel.LastAssignmentWins | scripts/start-tunnel.js:9-14 | a key's value is that of its last assigning line |
| StartTunnel.UnassignedKeyKept | scripts/start-tunnel.js:9-14 | a key no line assigns keeps its presence and value |
| StartTunnel.Port | scripts/start-tunnel.js:18 | `PORT` when set and non-empty, else 8081 |
| StartTunnel.StartTunnel | scripts/start-tunnel.js:7-33 | the script exits with code 1 exactly when `NGROK_DOMAIN` is missing or empty, and otherwise runs `ngrok http --url=<domain> <port>` |
| StartTunnel.NgrokCommandDetermines | scripts/start-tunnel.js:33 | for space-free domains the command determines the domain and the port |
| Strings.TrimEmptyIffBlank | services/tmdb.ts:59 | `s.trim()` is empty exactly when `s` is all JavaScript whitespace |
| Strings.TrimStartOfBlank | services/tmdb.ts:59 | trimming the leading whitespace of an all-whitespace string leaves nothing |
| Strings.KeepDigits | components/PhoneInput.tsx:171 | `replace(/[^\d]/g, "")` keeps only ASCII digits, and keeps every digit of the input |
| Strings.KeepDigitsConcat | components/PhoneInput.tsx:171 | digits are kept character by character: on a concatenation the result is the concatenation of the two |
| Strings.KeepDigitsSingle | components/PhoneInput.tsx:171 | a single character is kept exactly when it is an ASCII digit |
| Strings.RemoveSpaces | context/AuthContext.tsx:84 | `replace(/\s/g, "")` leaves no whitespace, and keeps every non-whitespace character of the input |
| Strings.RemoveSpacesConcat | context/AuthContext.tsx:84 | whitespace is removed character by character: on a concatenation the result is the concatenation of the two |
| Strings.RemoveSpacesSingle | context/AuthContext.tsx:84 | a single character is dropped exactly when it is whitespace |
| Strings.ContainsIffOccurs | components/PhoneInput.tsx:158-160 | `includes` holds exactly when the text occurs at some position |
| Strings.IntToStringInjective | services/tmdb.ts:25-30 | different numbers render to different decimal text |
| Strings.SplitJoin | scripts/start-tunnel.js:9 | splitting separator-free parts joined by the separator gives the parts back |
| Strings.JoinSplit | scripts/start-tunnel.js:9 | joining the split of a string by its separator gives the string back |
| Strings.EncodeUriComponentUnreserved | services/tmdb.ts:61 | `encodeURIComponent` leaves unreserved text unchanged |
| Strings.FormEncodeSafe | services/tmdb.ts:744 | the query-string encoding leaves form-safe text unchanged |
| Common.FilterConcat | services/tmdb.ts:148-151 | `filter` distributes over concatenation, so it keeps relative order |
| Common.OrNumber | services/tmdb.ts:79-80 | a number or its default: `x` when present and non-zero, else `d` |
| Common.OrText | components/HeroSection.tsx:144 | a text or its default: `s` when present and non-empty, else `d` |
| Common.Take | components/HeroSection.tsx:89 | `slice(0, n)` is a prefix of length `min(n, len)` |
| Common.Find | context/AuthContext.tsx:152 | `find` returns the first element satisfying the test, and none exactly when no element does |

## Left out

- Firebase Auth, Firestore, Storage and reCAPTCHA calls are not executed. Their outcomes are inputs: an `Sdk` value for each call, the outcome of every `setDoc` write included, the doc-exists and sign-in-method answers, and the link error code. A rejected write stores nothing. Firestore's `users` collection is a map held by `AuthProvider`.
- `fetch`, `response.json()` and the TMDB endpoints are a `string -> Response<T>` input, and `headers` are not modelled.
- `onAuthStateChanged` and `onSnapshot` subscriptions, and their unsubscribe functions, are not modelled as concurrent callbacks. Each callback is a method called with the snapshot. The source never unsubscribes the previous user's `onSnapshot` listener when the signed-in user changes, so old listeners may keep writing `userData`; the model keeps a single live copy, fed only by the current user's snapshots.
- Timers are not modelled:
  - the hero `setInterval` is a `Tick` method, and restarting it on a dot press is not modelled;
  - the 20-second `Promise.race` timeout of the profile save is folded into the `update` outcome.
- The clock is an input: `Date.now()` in comments, uploads and the "See All" parameter, and `new Date().toISOString()` in documents. `Math.random()` is an input too, as the two floored draws of `continueAsGuest`.
- libphonenumber's country list, calling codes and `parsePhoneNumberFromString(...).format("E.164")` are inputs. `localeCompare` is an integer collation key.
- `toLocaleString` of the results count is recorded as `CountLabel.Localized`, not formatted.
- Letter case is ASCII only. `toUpperCase`/`toLowerCase` change only ASCII letters here, while JavaScript maps all of Unicode. This affects country search, flags and initials for non-ASCII text.
- Strings are Unicode scalar sequences, while JavaScript strings are UTF-16. Lengths such as the phone's 10-character gate and the 6-character password count code points here, not UTF-16 units. A flag is one character per letter here, where JavaScript holds a surrogate pair.
- PhoneInput.FlagEmoji: requires ASCII input; callers pass libphonenumber's two-letter codes.
- Floating point and layout arithmetic (vote averages, card sizes) are not modelled.
- These TMDB detail fetches are not modelled: `fetchMovieDetails`, `fetchMovieVideos`, `fetchTVDetails`, `fetchSeasonDetails` and `getTVVideos`. They only return the parsed body, or throw.
  - `fetchMoviesByGenre` is not modelled either.
  - `fetchMovieImages` is the hero logo's input.
  - The fixed home feeds are endpoint strings (`FeedEndpoint`) passed to `FetchFromTmdb`.
- Also not modelled:
  - `logout` is a bare vendor call;
  - `createUserDocument` of the login screen is not used by the modelled handlers;
  - the hero's `handlePlay` is a plain router push;
  - the `signIn` sign-in call itself (only its input check and e-mail are modelled).
- The search screen's pagination and debounce are not part of this model.
- The tunnel script's file reading, `exec` and output streaming are not modelled. The file's text is an input and the command is the result.
- The server picker's `onSelect` callback and `Linking.openURL` are recorded as the lists of calls they receive.
- Navigation after a successful profile-setup save is recorded as a flag.
- The login screen's navigation and `window` reCAPTCHA objects are represented by `confirmation` and `verifierReady`.
- StartTunnel.NgrokCommandDetermines: holds only for domains without spaces, because a space in the domain would make the split point ambiguous.
- Login.AfterCheckUser: has no contract of its own; what it promises is stated by `Login.CheckUserRoutes`.
- Hero.HeroCarousel.Tick: requires a non-negative index, because JavaScript's `%` and Dafny's differ on negative operands; the index starts at 0 and only takes dot positions and `Tick` results.
- PhoneInput.SortBy: states a sorted permutation, not the stability ECMAScript guarantees for `Array.prototype.sort`.
- Hero.HeroCarousel.HandleDotPress: requires an index of a rendered dot; the source passes only those.
- Behaviours of the source that the model keeps as written:
  - a thrown recommendations request skips the similar fallback;
  - `removeFromMyList` throws a `TypeError` when the live document has no `myList`;
  - the phone field prints "undefined" before the digits when no country data is selected;
  - the first-run form treats a grid index outside the table as a failed update, because reading its `id` throws.
