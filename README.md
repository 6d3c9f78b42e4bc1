# AI Imager Studio: model registry and generation pipeline in Dafny

This project models the logic core of AI Imager Studio, a browser application in
which an operator registers image-model credentials and an end user sends a
prompt, with an optional source image, to the active model. The model covers:

- the data model and its bootstrap values (`types.ts`), in module `Types`;
- the browser key-value store holding the site settings, the model list and the
  admin flag (`services/store.ts`), in module `Store`: a class `ConfigStore`
  over a map from key to stored value, plus the pure read functions;
- the registry transforms behind the admin panel's handlers and the search
  filter (`components/AdminPanel.tsx`), in module `Registry`: pure list
  transforms, the invariants they keep, and a class `AdminPanel` that applies
  them to its state and persists through the store;
- the generation pipeline (`services/gemini.ts`), in module `Gemini`: the
  missing-key check, the request parts, the response scan loop, the data-URI
  result, error re-wrapping and `fileToBase64`;
- the generation form's handlers (`components/ImageGenerator.tsx`), in module
  `Generator`: the class `ImageGenerator`, its drop filter, the submission gate
  and the Idle → Generating → {image | error} steps.

`JsString` models the JavaScript string built-ins the code uses (`startsWith`,
`includes`, `toLowerCase`, `split(',')[1]`). `Wrappers` holds `Option` (an
optional or `undefined` value) and `Result` (a value, or a thrown `Error`'s
message).

External things are parameters: the build-time `API_KEY` is an `Option<string>`
given to the store, the provider is a total function from the call it receives
to its reply, what reading a file yields is part of the file value, and the id
`Date.now()` would produce is a parameter of `SaveModel`.

Behaviour of the code worth knowing, as the model states it:

- Update, delete, set-default and toggle do not fail on an unknown id. Update
  and delete then change nothing; set-default clears every default; toggle
  flips nothing (no entry matches) but still persists.
- Delete never promotes another entry, so deleting the default can leave no
  default (`Registry.DeleteDefaultLeavesNone`). "Exactly one default" is
  therefore not an invariant. What every mutation keeps is unique ids, at most
  one default, and "default ⇒ enabled" (`Registry.RegistryValid`).
- The empty-input check (`components/ImageGenerator.tsx:53-55`, "Please provide a
  prompt or upload an image.") exists only in the form. The pipeline itself
  sends "Enhance this image" for an empty prompt even with no image
  (`Generator.EmptyPromptReachesPipeline`).
- The generation form's `activeModel` is a prop, re-read on every render: after
  the admin changes the default, the same form, with its prompt, file and ratio,
  submits with the new model (`Generator.ImageGenerator.SetActiveModel`).
- The request's image data and MIME type are independent optional fields. The
  image part is sent only when both are non-empty.
- `getActiveModel` on an empty stored list yields `undefined` (`None`). It does
  not raise an error.

## Model

| member | source | states |
|---|---|---|
| `Types.LanguageCodes` | types.ts:2 | every language code is "en" or "zh-TW", and distinct languages have distinct codes |
| `Types.AspectRatioValues` | types.ts:18-21 | Portrait is "9:16", Landscape is "16:9", and the two differ |
| `Types.EnvApiKey` | types.ts:45 | the key is the environment key, or "" when there is none |
| `Types.DefaultModelFacts` | types.ts:42-48 | the bootstrap model is default and enabled; with no environment key its key is empty |
| `Types.DefaultSiteConfigFacts` | types.ts:36-40 | the default settings define all three fields, with language "en" |
| `JsString.Includes` | components/AdminPanel.tsx:72-73 | `includes` is true exactly when the needle occurs at some position |
| `JsString.ToLower` | components/AdminPanel.tsx:72 | lower-casing keeps the length and lower-cases each character |
| `JsString.SecondField` | services/gemini.ts:63 | `split(',')[1]` is undefined exactly when there is no comma, and a defined result has no comma |
| `JsString.SecondFieldOfJoin` | services/gemini.ts:63 | splitting inverts joining: the second field of `a,b` (or `a,b,…`) is `b` |
| `Store.SiteConfigIn` | services/store.ts:10-17 | with nothing stored the defaults are returned; otherwise each stored field overrides its default and each missing field takes the default |
| `Store.ModelRecords` | services/store.ts:37-39 | the saved list keeps the length and every saved record carries its enabled flag |
| `Store.MigrateAll` | services/store.ts:28-31 | migration keeps length, order and every field; an explicit enabled flag (even false) is kept, and only a missing one becomes true |
| `Store.ConfigRecord` | services/store.ts:19-21 | the saved settings record carries every field of the settings |
| `Store.Override` | services/store.ts:14 | the stored field wins when present, the default otherwise |
| `Store.Migrate` | services/store.ts:28-31 | one record keeps id, name, key and default flag; it is enabled unless it explicitly says `false` |
| `Store.ModelsIn` | services/store.ts:23-35 | with nothing stored the result is the one-element bootstrap list; with a stored list it is exactly that list migrated (`MigrateAll`); a value of the wrong kind reads as nothing stored |
| `Store.FindFirst` | services/store.ts:44 | `find` yields the first index satisfying the predicate, or nothing when none does |
| `Store.ActiveModelOf` | services/store.ts:41-45 | the first default entry, else the first enabled entry, else the first entry; nothing only for an empty list; a default wins whatever the others' enabled flags |
| `Store.ModelsRoundTrip` | services/store.ts:23-39 | saving a list and reading it back yields that list |
| `Store.MigrateRecords` | services/store.ts:28-31 | migration undoes serialisation |
| `Store.BootstrapActive` | services/store.ts:33-34 | with nothing stored the active model is the bootstrap model |
| `Store.SiteConfigRoundTrip` | services/store.ts:10-21 | saving settings and reading them back yields the same settings |
| `Store.KeysIndependent` | services/store.ts:4-8 | writing or removing one key never changes what the other two read |
| `Store.AdminFlagExact` | services/store.ts:47-49 | the admin flag reads as set only for the exact text "true", and not at all when the key is absent |
| `Store.ConfigStore.GetSiteConfig` | services/store.ts:10-17 | the defaults when nothing is stored; otherwise each stored field overrides its default |
| `Store.ConfigStore.GetModels` | services/store.ts:23-35 | the bootstrap list when nothing is stored; otherwise the migrated stored list |
| `Store.ConfigStore.GetActiveModel` | services/store.ts:41-45 | the bootstrap model when nothing is stored; nothing only for an empty list; the result is in the list, and is a default whenever the list has one |
| `Store.ConfigStore.CheckAdminAuth` | services/store.ts:47-49 | true only when the key holds exactly the text "true"; false for an absent key, other text or another kind of value |
| `Store.ConfigStore.SaveSiteConfig` | services/store.ts:19-21 | only the settings key changes, and it reads back as the saved settings |
| `Store.ConfigStore.SaveModels` | services/store.ts:37-39 | only the model key changes, and it reads back as the saved list |
| `Store.ConfigStore.SetAdminAuth` | services/store.ts:47-57 | true writes the flag and false removes the key; the admin check then returns the value set |
| `Registry.AddModel` | components/AdminPanel.tsx:103-111 | exactly one entry is appended and the prior entries are untouched; it is enabled, and it is the default iff the list was empty |
| `Registry.UpdateModel` | components/AdminPanel.tsx:95-101 | only name and key of matching entries change; ids, flags, positions and other entries are unchanged |
| `Registry.DeleteModel` | components/AdminPanel.tsx:123 | an entry is kept iff it was present and its id differs |
| `Registry.SetDefault` | components/AdminPanel.tsx:130-136 | default exactly where the id matches, and those entries are enabled; other entries keep their enabled flag; length is kept |
| `Registry.SetEnabled` | components/AdminPanel.tsx:150-152 | only matching entries change, and only their enabled flag |
| `Registry.ToggleEnabled` | components/AdminPanel.tsx:143-152 | refused iff the status shows enabled and the first entry with that id is the default; otherwise only the matching entries' enabled flag becomes `!currentStatus` |
| `Registry.FilterModels` | components/AdminPanel.tsx:70-75 | an entry is kept iff the lower-cased name contains the lower-cased query or the id contains the query |
| `Registry.FilterAppend` | components/AdminPanel.tsx:71-74 | the filter keeps relative order: filtering a concatenation filters each part |
| `Registry.EmptyQueryKeepsAll` | components/AdminPanel.tsx:71-74 | an empty query keeps every entry |
| `Registry.DeleteAppend` | components/AdminPanel.tsx:123 | deleting keeps the others in order: it distributes over concatenation |
| `Registry.DeleteAbsent` | components/AdminPanel.tsx:123 | deleting an absent id changes nothing |
| `Registry.UpdateAbsent` | components/AdminPanel.tsx:97-101 | updating an absent id changes nothing |
| `Registry.SetDefaultAbsent` | components/AdminPanel.tsx:131-136 | setting an absent id as default leaves no default |
| `Registry.SetDefaultExactlyOne` | components/AdminPanel.tsx:131-136 | with unique ids, setting a present id leaves exactly one default, and it is enabled |
| `Registry.DeleteDefaultLeavesNone` | components/AdminPanel.tsx:121-128 | deleting the default of a valid registry leaves no default; nothing is promoted |
| `Registry.AddKeepsValid` | components/AdminPanel.tsx:104-111 | adding with a fresh id keeps unique ids, at most one default and default ⇒ enabled |
| `Registry.UpdateKeepsValid` | components/AdminPanel.tsx:97-101 | updating keeps the registry invariants |
| `Registry.DeleteKeepsValid` | components/AdminPanel.tsx:123 | deleting keeps the registry invariants |
| `Registry.SetDefaultKeepsValid` | components/AdminPanel.tsx:131-136 | setting the default keeps the registry invariants |
| `Registry.ToggleKeepsValid` | components/AdminPanel.tsx:143-152 | an accepted toggle keeps the registry invariants; in particular the default is never disabled |
| `Registry.EndToEnd` | components/AdminPanel.tsx:89-156 | the sequence add a, add b, set b default, disable a yields flags as expected, and b is the active model |
| `Registry.AdminPanel.constructor` | components/AdminPanel.tsx:28-34 | the panel starts from the store's model list with an empty query and a reset form |
| `Registry.AdminPanel.FilteredModels` | components/AdminPanel.tsx:70-75 | the shown entries are exactly the models matching the current query |
| `Registry.AdminPanel.ResetModelForm` | components/AdminPanel.tsx:77-81 | the form returns to adding, with the stock model name and an empty key |
| `Registry.AdminPanel.EditModel` | components/AdminPanel.tsx:83-87 | the form holds the chosen entry's id, name and key |
| `Registry.AdminPanel.SaveModel` | components/AdminPanel.tsx:89-119 | an empty name or key changes and persists nothing; otherwise the list is updated (editing a non-empty id) or extended, persisted and the form reset; the invariants are kept |
| `Registry.AdminPanel.DeleteModelById` | components/AdminPanel.tsx:121-128 | the list loses the id's entries and is persisted; an edit of that id is abandoned |
| `Registry.AdminPanel.SetDefaultById` | components/AdminPanel.tsx:130-141 | the list is set-default'ed and persisted; the invariants are kept |
| `Registry.AdminPanel.ToggleEnabledById` | components/AdminPanel.tsx:143-156 | a refused toggle changes and persists nothing; an accepted one flips the flag and persists |
| `Gemini.RequestParts` | services/gemini.ts:11-24 | the first part is the prompt text or "Enhance this image"; an image part follows iff data and MIME type are both non-empty, so there are one or two parts |
| `Gemini.ProviderCallFor` | services/gemini.ts:27-37 | the call is addressed by model name with the model's key, carries exactly the request parts, and the ratio goes in the image configuration, not in the text |
| `Gemini.FirstImageData` | services/gemini.ts:40-46 | the data of the first part carrying non-empty inline data; nothing iff no part carries any |
| `Gemini.ScanForImage` | services/gemini.ts:41-45 | the in-order scan with early return finds exactly the first image's data |
| `Gemini.ReplyParts` | services/gemini.ts:40 | no candidate list gives no parts; an empty candidate list or a first candidate without content gives the engine's error; otherwise the first candidate's parts, possibly absent |
| `Gemini.ImageFromResponse` | services/gemini.ts:39-48 | success iff the first candidate's parts hold an image part, and then the result is the prefix plus the first such part's data; a malformed reply keeps the engine's message; every other failure is "No image generated in the response." |
| `Gemini.Rewrap` | services/gemini.ts:50-53 | a failure keeps its own message, or becomes "Failed to generate image" when that is empty |
| `Gemini.Generation` | services/gemini.ts:4-54 | an empty key fails with the missing-key message; every failure has a message; a success starts with "data:image/png;base64," and has data after it |
| `Gemini.GenerateImage` | services/gemini.ts:4-54 | the provider is called iff the key is non-empty, with the call built from the request, and the result is the generation's outcome |
| `Gemini.SuccessIsFirstImage` | services/gemini.ts:40-46 | a success means the provider answered and the result is the prefix plus the first image part of the first candidate |
| `Gemini.DataUriStrips` | services/gemini.ts:43 | removing the prefix from the data URI gives back the image data |
| `Gemini.ImageInReply` | services/gemini.ts:40-43 | an image part among the first candidate's parts, whatever the other candidates, makes the generation succeed with the first image part's data |
| `Gemini.NoImageInReply` | services/gemini.ts:40-48 | a reply without candidates, with no parts, or whose parts carry no image fails with "No image generated in the response." |
| `Gemini.MalformedReply` | services/gemini.ts:40-53 | an empty candidate list or a first candidate without content fails with the engine's message |
| `Gemini.ProviderFailure` | services/gemini.ts:50-53 | a provider failure is re-raised with its message, or the generic one; there is no retry |
| `Gemini.FileToBase64` | services/gemini.ts:56-71 | a string result resolves (undefined iff it has no comma, and never containing a comma); a non-string result is rejected with a message; a read error is rejected without one |
| `Gemini.FileToBase64OfDataUrl` | services/gemini.ts:61-63 | the payload of `data:<mime>;base64,<payload>` is recovered exactly |
| `Generator.ImageGenerator.constructor` | components/ImageGenerator.tsx:13-21 | the form starts idle and empty, with ratio Portrait |
| `Generator.ImageGenerator.SetActiveModel` | components/ImageGenerator.tsx:8-13 | a new `activeModel` prop replaces the model and leaves the prompt, file, ratio and outcome as they were |
| `Generator.ImageGenerator.HandleFileChange` | components/ImageGenerator.tsx:25-32 | the first chosen file becomes the selection |
| `Generator.ImageGenerator.HandleDrop` | components/ImageGenerator.tsx:34-45 | a dropped file is taken only if its type starts with "image/"; otherwise the selection is unchanged |
| `Generator.ImageGenerator.BeginGenerate` | components/ImageGenerator.tsx:52-60 | with no prompt and no file only the error is set; otherwise generating starts with the error and image cleared |
| `Generator.ImageGenerator.HandleGenerate` | components/ImageGenerator.tsx:52-86 | the request carries the prompt, the file's data and type, the ratio and the active model; the image or the error message lands in its field; generating always ends false |
| `Generator.EmptyPromptReachesPipeline` | services/gemini.ts:11-15 | the pipeline alone sends "Enhance this image" for an empty prompt without an image |

## Left out

- JSON text: stored values are structured (`Store.Value`), not strings. `JSON.parse` failures are not modelled. Extra fields in stored records are not modelled. A stored language outside the two codes is not modelled. An `isEnabled` stored as `null` is not modelled.
- Store.SiteConfigIn, Store.ModelsIn: a value of the wrong kind under a key is read as if the key were absent. The source would `JSON.parse` whatever text is there.
- JsString.ToLower: lower-cases ASCII letters only. JavaScript's full Unicode case mapping is not modelled.
- Gemini.ReplyParts: the messages for a missing first candidate or missing content are V8's `TypeError` texts. Other engines word them differently.
- The provider client construction and the network call: the provider is a total function from call to reply. Its wire format, latency and timeouts are not modelled.
- `console.error` logging in the catch block: logging only.
- `FileReader`, `URL.createObjectURL`, the preview URL and the download link: browser I/O. Only what a read yields is modelled.
- Async/await: each await is one sequential step. Overlapping generations and last-writer-wins across browser tabs are not modelled.
- `Date.now()` ids: the new id is a parameter of `SaveModel`, required to be absent from the list. The source does not guarantee this.
- `window.confirm` before delete: taken as already confirmed. `alert` on a refused toggle: the `applied = false` outcome.
- The login gate, logout, `handleSaveSiteConfig`, success banners, tabs, translations and all rendering: presentation and UI authentication.
- The `onConfigUpdate` callback and `App.tsx` re-reading the store: `Registry.AdminPanel.Persisted` states that the store reads back the panel's list after every handler.
- The prompt text area, ratio buttons and search box setters: plain field assignments in markup.
- `GenerationResult` (`types.ts:31-34`): declared but not used by the modelled code.
