# rjn-property-connect — a Dafny model of the listing logic

rjn-property-connect is a small property-listing site. Visitors browse listings. Signed-in users submit new ones through a form with image upload. An administrator verifies or deletes listings. Most of the code is glue over an ORM, an auth and storage provider, and React rendering. This project models the logic that exists in the repository itself:

- **Property codes** (`src/lib/generatePropertyCode.ts`, module `PropertyCode`). The purpose string is trimmed. Its first character is upper-cased and joined to the clock reading with a dash. `Date.now()` becomes the parameter `now: nat`. The lemmas show the layout of a code and that the timestamp can be read back from it. They also show that two codes are equal exactly when their prefixes and timestamps are equal, that blanks around the purpose do not matter, and that a blank purpose gives `"-" + now`.
- **The in-memory store** (`src/data/properties.ts`, module `PropertyData`). A class holds the module-level `properties` array, seeded with `R001` (verified) and `R002` (pending). `AddProperty` prepends a record in place, as `unshift` does, and checks nothing, so duplicate ids are allowed.
- **The admin panel** (`src/app/admin/page.tsx`, module `AdminPanel`). The two updaters passed to `setProperties` are pure functions: `MarkVerified` is the `map` and `WithoutId` is the `filter`. The click handlers are methods of the page state. They receive the user's confirmation and whether the response was ok, and they return the requests and alerts they issue, in order. The Verify button appears only on pending listings.
- **The add-property form** (`src/app/add-property/page.tsx`, module `AddProperty`):
  - The phone input's `onChange` rule is the pure function `PhoneInput`.
  - `uploadImages` is a loop. Uploading one file is an abstract function from file to `UploadStep`: either the `url` field of the response, possibly absent, or an exception.
  - `handleSubmit` is a method proved against `SubmitTrace`. That function gives every effect of a submission in order: the loading flag, the phone error, the user lookup, each upload, the create request, the navigation and the alerts.
  - The class invariant `Valid()` records that the phone field holds only digits.

The code never calls `generatePropertyCode`. `POST /api/properties` (`src/app/api/properties/route.ts:37-48`) stores no code at all. The model takes a code to be what `generatePropertyCode` builds, prefix, dash and timestamp, and nothing in it issues or stores one.

## Model

| member | source | states |
|---|---|---|
| `PropertyCode.ToUpperAscii` | src/lib/generatePropertyCode.ts:7 | a lower-case ASCII letter becomes the matching capital (32 code points lower); any other character is kept |
| `PropertyCode.TrimStart` | src/lib/generatePropertyCode.ts:5 | the leading-blank drop of `trim`: the result is no longer than the input and is empty or starts with a non-blank (`TrimStartShape` states it exactly) |
| `PropertyCode.TrimEnd` | src/lib/generatePropertyCode.ts:5 | the trailing-blank drop of `trim`: the result is no longer than the input and is empty or ends with a non-blank (`TrimEndShape` states it exactly) |
| `PropertyCode.Trim` | src/lib/generatePropertyCode.ts:5 | `trim()`: the result is no longer than the input and has no blank at either end; `TrimFirst` and `TrimIgnoresBlanks` state which characters it keeps |
| `PropertyCode.TrimStartShape` | src/lib/generatePropertyCode.ts:5 | the start-trimmed string is a suffix of the input; everything dropped is whitespace; the result is empty or starts with a non-blank |
| `PropertyCode.TrimEndShape` | src/lib/generatePropertyCode.ts:5 | the end-trimmed string is a prefix of the input; everything dropped is whitespace; the result is empty or ends with a non-blank |
| `PropertyCode.TrimFirst` | src/lib/generatePropertyCode.ts:5-6 | the trimmed purpose is empty iff the purpose is all whitespace; otherwise its first character is the purpose's first non-blank |
| `PropertyCode.TrimIgnoresBlanks` | src/lib/generatePropertyCode.ts:5 | adding whitespace before and after a string does not change what `trim` returns |
| `PropertyCode.Prefix` | src/lib/generatePropertyCode.ts:4-7 | the prefix has at most one character (`charAt(0)` of an empty string is empty) |
| `PropertyCode.PrefixIsFirstNonBlank` | src/lib/generatePropertyCode.ts:4-7 | the prefix is empty iff the purpose is blank; a purpose that is not blank has a first non-blank character, and the prefix is that character upper-cased |
| `PropertyCode.PrefixShape` | src/lib/generatePropertyCode.ts:4-7 | a non-empty prefix is never whitespace and never a lower-case ASCII letter |
| `PropertyCode.PrefixOfWord` | src/lib/generatePropertyCode.ts:4-7 | a purpose with no blank at either end gives its own first character, upper-cased |
| `PropertyCode.PrefixIgnoresBlanks` | src/lib/generatePropertyCode.ts:5 | whitespace around the purpose does not change the prefix |
| `PropertyCode.Decimal` | src/lib/generatePropertyCode.ts:10 | the rendered timestamp is a non-empty run of decimal digits with no leading zero except for 0 itself |
| `PropertyCode.DecimalRoundTrip` | src/lib/generatePropertyCode.ts:10 | reading the rendered digits back gives the timestamp |
| `PropertyCode.GenerateCode` | src/lib/generatePropertyCode.ts:3-10 | a code is the prefix, a dash at index \|prefix\|, then only digits; `ParseGenerated` reads the prefix and timestamp back and `CodesCollide` says when two codes are equal |
| `PropertyCode.ParseGenerated` | src/lib/generatePropertyCode.ts:3-10 | splitting a code at its last dash recovers exactly the prefix and the timestamp that produced it |
| `PropertyCode.CodesCollide` | src/lib/generatePropertyCode.ts:3-10 | two codes are equal iff their prefixes are equal and their timestamps are equal, so purposes with the same first letter collide at the same instant and only the timestamp separates them |
| `PropertyCode.SurroundingBlanksIgnored` | src/lib/generatePropertyCode.ts:5 | `generatePropertyCode(lead + p + trail)` equals `generatePropertyCode(p)` for any whitespace `lead` and `trail` at the same instant |
| `PropertyCode.SellWithBlanks` | src/lib/generatePropertyCode.ts:5 | `" sell "` and `"sell"` give the same code |
| `PropertyCode.PrefixSellUpper` | src/lib/generatePropertyCode.ts:6-7 | `"SELL"` has prefix `"S"` |
| `PropertyCode.PrefixSellLower` | src/lib/generatePropertyCode.ts:6-7 | `"sell"` has prefix `"S"` |
| `PropertyCode.PrefixRentUpper` | src/lib/generatePropertyCode.ts:6-7 | `"RENT"` has prefix `"R"` |
| `PropertyCode.PrefixSale` | src/lib/generatePropertyCode.ts:6-7 | `"sale"` has prefix `"S"` |
| `PropertyCode.KnownPurposes` | src/lib/generatePropertyCode.ts:4-10 | `"SELL"` and `"sell"` both give `"S-" + now`; `"RENT"` gives `"R-" + now` |
| `PropertyCode.BlankPurpose` | src/lib/generatePropertyCode.ts:4-10 | an empty or all-blank purpose gives `"-" + now` |
| `PropertyCode.SameLetterCollides` | src/lib/generatePropertyCode.ts:3-10 | `"SELL"` and `"sale"` give the same code at the same instant |
| `PropertyData.PropertyStore.constructor` | src/data/properties.ts:12-33 | the store starts as exactly the two seed records, in order |
| `PropertyData.SeedProperties` | src/data/properties.ts:12-33 | the seed list has two records and no id occurs twice in it (`SeedShape` names the records) |
| `PropertyData.SeedShape` | src/data/properties.ts:12-33 | there are two seeds: `R001`, verified, then `R002`, not verified |
| `PropertyData.PropertyStore.AddProperty` | src/data/properties.ts:36-38 | the new record comes first; the length grows by one; the old records follow unchanged and in order |
| `PropertyData.CountIdPositive` | src/data/properties.ts:12-38 | an id that occurs in the store is counted at least once |
| `PropertyData.AddPropertyCounts` | src/data/properties.ts:36-38 | prepending adds exactly one occurrence of the new id, whether or not it was there already; the counts of other ids stay the same |
| `PropertyData.AddPropertyAllowsDuplicates` | src/data/properties.ts:36-38 | adding a record whose id is already stored leaves that id in the store at least twice: there is no duplicate check |
| `AdminPanel.Actions` | src/app/admin/page.tsx:149-174 | Delete is offered for every listing; Verify is offered iff the listing is not verified |
| `AdminPanel.VerifyEntry` | src/app/admin/page.tsx:56-58 | one entry after the verify updater: verified iff it was verified or has the id, every other field as before |
| `AdminPanel.MarkVerified` | src/app/admin/page.tsx:56-58 | the `map` keeps the length of the list; `MarkVerifiedSpec` states the rest entry by entry |
| `AdminPanel.MarkVerifiedSpec` | src/app/admin/page.tsx:55-59 | the verify updater keeps length and order; an entry ends verified iff it was verified or has the id; only the `verified` field of a matching entry changes; entries with other ids are unchanged |
| `AdminPanel.MarkVerifiedIdempotent` | src/app/admin/page.tsx:56-58 | applying the verify updater twice equals applying it once |
| `AdminPanel.MarkVerifiedNoChange` | src/app/admin/page.tsx:56-58 | when every entry with the id is already verified, the updater returns the list unchanged |
| `AdminPanel.VerifyHidesButton` | src/app/admin/page.tsx:56-58 | after the verify updater, entries with the id offer only Delete, and every other entry offers what it offered before |
| `AdminPanel.WithoutId` | src/app/admin/page.tsx:80-82 | the `filter` never lengthens the list; `WithoutIdMembers` and `WithoutIdConcat` state which entries survive and in what order |
| `AdminPanel.WithoutIdMembers` | src/app/admin/page.tsx:80-82 | after the delete updater no entry has the id; the survivors are exactly the entries with other ids, each as many times as before |
| `AdminPanel.WithoutIdConcat` | src/app/admin/page.tsx:80-82 | the delete updater distributes over concatenation, so the survivors keep their relative order |
| `AdminPanel.WithoutIdAbsent` | src/app/admin/page.tsx:80-82 | a list with no entry of that id is left as it is |
| `AdminPanel.WithoutIdIdempotent` | src/app/admin/page.tsx:80-82 | deleting the same id twice equals deleting it once |
| `AdminPanel.AdminPage.constructor` | src/app/admin/page.tsx:37-40 | the panel's list is the list it loaded |
| `AdminPanel.AdminPage.VerifyProperty` | src/app/admin/page.tsx:47-63 | the id is posted; on an ok response the list becomes the verify updater's result; otherwise the list is unchanged and the failure is alerted |
| `AdminPanel.AdminPage.DeleteProperty` | src/app/admin/page.tsx:66-86 | confirmation is asked first; if it is declined nothing is posted and the list is unchanged; on an ok response the list becomes the delete updater's result; otherwise it is unchanged and the failure is alerted |
| `AddProperty.PhoneInput` | src/app/add-property/page.tsx:172-185 | a value with a non-digit is ignored and the field is unchanged (the empty value passes); an accepted value becomes the phone, and the error is non-empty iff its length is not 10 |
| `AddProperty.PhoneInputKeepsDigits` | src/app/add-property/page.tsx:176-183 | a ten-digit value is taken and clears the message |
| `AddProperty.UploadAll` | src/app/add-property/page.tsx:34-57 | `uploadImages` as a function: on success one URL per file, on failure the index of a file that was selected; `UploadAllSpec` states the full promise |
| `AddProperty.UploadAllSpec` | src/app/add-property/page.tsx:34-57 | uploads succeed iff no file's step throws; then there is one URL per file, `urls[i]` being the response for `files[i]`; otherwise the failure is the first file whose step threw |
| `AddProperty.UploadsDetermined` | src/app/add-property/page.tsx:34-57 | that promise fixes the result uniquely |
| `AddProperty.Attempted` | src/app/add-property/page.tsx:37-54 | the loop never uploads more files than were selected |
| `AddProperty.UploadImages` | src/app/add-property/page.tsx:34-57 | the loop returns one URL per file in file order, or stops at the first file whose step throws; it uploads exactly the files up to and including that one |
| `AddProperty.RequestFor` | src/app/add-property/page.tsx:93-104 | the body of the create request: the form's fields in the source's order, `price` as the text typed, the collected image URLs, and the user's e-mail, which may be absent; `SubmitPosts` says which request a submission posts |
| `AddProperty.PostAndFinish` | src/app/add-property/page.tsx:90-116 | three effects: the create request first and loading cleared last by `finally`; `SubmitNavigates` and `SubmitAlertsFailure` show that the one in between is the navigation home on a successful save and the failure alert otherwise; `PostAndFinishPosts` shows it posts exactly that one request |
| `AddProperty.AfterLookup` | src/app/add-property/page.tsx:76-116 | the effects after the user lookup: the alert for a missing user, the uploads, the create request. `TryWithoutImages` and `TryWithImages` spell out both image cases |
| `AddProperty.TryTrace` | src/app/add-property/page.tsx:70-116 | the `try`/`catch`/`finally` effects start with the user lookup and end with loading cleared; `TryPostsWithoutImages` and `TryPostsWithImages` say what it posts |
| `AddProperty.SubmitTrace` | src/app/add-property/page.tsx:59-117 | a submission switches loading on, then either sets the phone error (wrong length) or looks the user up (ten characters); `SubmitPhoneGate`, `SubmitPosts` and `SubmitClearsLoading` state the rest |
| `AddProperty.SubmitPhoneGate` | src/app/add-property/page.tsx:63-67 | with a phone whose length is not 10, the submission only sets loading, sets the phone error and clears loading: no user lookup, no upload, no request |
| `AddProperty.SubmitNeedsUser` | src/app/add-property/page.tsx:76-80 | with no signed-in user the submission looks the user up, alerts and clears loading (once in the branch, once in `finally`); nothing is uploaded or posted |
| `AddProperty.SubmitClearsLoading` | src/app/add-property/page.tsx:59-116 | on every path the first effect switches loading on and the last switches it off |
| `AddProperty.PostedConcat` | src/app/add-property/page.tsx:59-116 | the requests posted by two effect sequences in a row are those of the first followed by those of the second |
| `AddProperty.NothingPosted` | src/app/add-property/page.tsx:59-116 | an effect sequence with no create request posts nothing |
| `AddProperty.SubmitPosts` | src/app/add-property/page.tsx:70-116 | at most one create request is posted. One is posted iff the phone has ten characters, a user is signed in and no upload threw. It carries the form fields and the user's e-mail, with no images if none were selected and the collected URLs otherwise |
| `AddProperty.TryOutcomeWithoutImages` | src/app/add-property/page.tsx:89-116 | with no images selected, the `try` block navigates home iff the save succeeds and alerts the failure iff it does not |
| `AddProperty.TryOutcomeWithImages` | src/app/add-property/page.tsx:85-116 | with images selected, the `try` block navigates home iff every upload responded and the save succeeded, and alerts the failure otherwise |
| `AddProperty.SubmitOutcomes` | src/app/add-property/page.tsx:59-116 | a submission navigates home iff it reaches the save (ten-character phone, a user, no upload that threw) and the save succeeds; it alerts the failure iff the phone has ten characters, a user is present, and either the save is not reached or it fails |
| `AddProperty.SubmitPostsIffSaved` | src/app/add-property/page.tsx:59-105 | a request is posted iff the submission reaches the save |
| `AddProperty.SubmitNavigates` | src/app/add-property/page.tsx:107-111 | the submission navigates to "/" iff a request was posted and the save succeeded |
| `AddProperty.SubmitAlertsFailure` | src/app/add-property/page.tsx:85-113 | "Failed to submit property" is alerted iff the phone has ten characters, a user is present, and either an upload threw or a request was posted and its save failed |
| `AddProperty.SubmitLooksUpUserFirst` | src/app/add-property/page.tsx:72-90 | whenever a request is posted, a user was found and the lookup came right after loading was switched on |
| `AddProperty.SubmitPostsTenDigits` | src/app/add-property/page.tsx:63-102 | a posted request carries the form's phone, which has ten characters, all digits when the field holds only digits (as `Valid()` guarantees) |
| `AddProperty.SubmitImages` | src/app/add-property/page.tsx:83-100 | with no images selected the posted `images` is empty; otherwise it has one entry per file, in file order, each the URL answered for that file |
| `AddProperty.AddPropertyPage.constructor` | src/app/add-property/page.tsx:21-32 | every field starts empty, no images are selected, there is no phone error, loading is off |
| `AddProperty.AddPropertyPage.Edit` | src/app/add-property/page.tsx:127-161 | a text input or select sets its own field and nothing else |
| `AddProperty.AddPropertyPage.SelectImages` | src/app/add-property/page.tsx:207-209 | the file input sets the selected images and nothing else |
| `AddProperty.AddPropertyPage.OnPhoneChange` | src/app/add-property/page.tsx:172-185 | the phone state becomes `PhoneInput` of the old state and the value; the other fields stay the same; the phone stays all digits |
| `AddProperty.AddPropertyPage.HandleSubmit` | src/app/add-property/page.tsx:59-117 | the effects are exactly `SubmitTrace` of the form. Loading ends off. The phone error is set iff the phone's length is not 10. No form field changes |
| `AddProperty.AddPropertyPage.TrySubmit` | src/app/add-property/page.tsx:70-116 | the `try` block with its `catch` and `finally` issues exactly the effects after the phone check and ends with loading off |
| `AddProperty.AddPropertyPage.SaveProperty` | src/app/add-property/page.tsx:89-116 | posting the request and the `finally` issue exactly `PostAndFinish` and end with loading off; only loading may change |

## Left out

- Supabase auth and storage, `fetch`, and the Prisma API routes under `src/app/api/` are not modelled. Their answers are parameters: the signed-in user, one `UploadStep` per file, and "response ok" or "save ok" flags.
- The admin page's `useEffect` initialisation is not modelled. It does the admin e-mail check, the list fetch and the loading screen. The panel starts from the list it loaded. The session redirect on the add-property page, all JSX rendering, routing and styling are also left out. The Verify/Delete visibility rule is kept as `Actions`.
- `browser-image-compression` and its parameters are not modelled; they are folded into the per-file upload step. The `URL.createObjectURL` previews are not modelled either.
- `Date.now()` is the parameter `now`. `generatePropertyCode` is `async`; the model gives the value its promise resolves to.
- `Number(price)` is a floating-point conversion. The request keeps the price text as typed.
- PropertyData.Property: `price` is an `int`, while the source's `price: number` also admits fractional prices such as 1.5 (both seeds are whole numbers). The store never inspects the price, so nothing proved depends on it.
- Interleaving of asynchronous handlers is not modelled. `AdminPanel.AdminPage.VerifyProperty` and `AdminPanel.AdminPage.DeleteProperty` each run as one atomic step, taken when the response arrives. In the source another handler's `setProperties` can land during the `await fetch`, and the updater then applies to the list as it is at that moment; the model applies it to the list at the start of the step. `AddProperty.AddPropertyPage.HandleSubmit` is likewise one step, with no other event between its `await`s.
- Trimming and upper-casing are restricted to ASCII: six whitespace characters and the letters a–z. Unicode blanks such as U+00A0 are not covered. Neither are upper-case mappings that produce two characters, or UTF-16 code units.
- AdminPanel.AdminPage.VerifyProperty: a `fetch` that rejects, for example on a network error, is not modelled. The model covers a response that arrives, ok or not. The same holds for `AdminPanel.AdminPage.DeleteProperty`.
- AddProperty.AddPropertyPage.TrySubmit: `getUser` is treated as never throwing. A throwing lookup would reach the `catch` alert; the model only covers a user who is present or absent.
- The `maxLength={10}` attribute is enforced by the browser and is not modelled. `PhoneInput` handles values of any length.
- `e.preventDefault()` and `router.push` are not modelled beyond recording the navigation as an effect.
- Count-based sequential codes, the `RJN` region token and retry on a duplicate insert are not modelled, because no file of the repository implements them.
