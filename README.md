# capital-web-edge: lead forwarding, valuation saving, blog editing and financial validation

This project models four pieces of the Capittal web application and proves properties of them:

- **`sync-leads` edge function** (`SyncLeads`). It receives a tagged envelope `{type, data}` and maps it to a row of the secondary store's `leads` table. There are four lead kinds, each selecting and renaming fields and fixing `source` and `status`; an unknown kind gives `{}`. The function then inserts the row and answers the HTTP request: an `OPTIONS` preflight, 200 with the stored row, 500 with the attempted row echoed, or 500 on an exception.
- **Valuation persistence hook** (`Valuation`, `ValuationForwarding`):
  - `insertData` is the `company_valuations` row built from the form with JavaScript's falsy-`||` defaults.
  - `saveValuation` is the two-phase save. An IP lookup failure is tolerated. A store error is fatal and skips the forward. A forward error is swallowed.
  - `saveToolRating` tolerates nothing.
  - `ValuationForwarding` proves that the forwarded row arrives at `sync-leads` as a valuation lead that carries the same values.
- **Admin blog editor page** (`Slug`, `SlugContent`, `BlogEditor`):
  - the slug chain of `replace` calls, and what of a title survives in its slug;
  - the `meta_title` rule on title edits;
  - the merge update that marks the post dirty;
  - the load effect, with its new-post defaults;
  - `handleSave`, and the autosave guard.
- **Financial step of the valuation form** (`FinancialForm`):
  - the neutral, green or red decision table and the check icon;
  - the touched set, which only grows;
  - the adjustments radio buttons.

`Js` holds the JavaScript values the sources handle: `undefined`, `null`, booleans, integers and strings, with truthiness and `a || b`. An untyped object is a total function from property names to values, because a missing property reads as `undefined`. `Ui` holds the toasts.

The network, the stores, the clock, the browser's user agent and the validation hook are parameters. What the code does to the outside world is returned as an ordered trace of effects: inserts, the forwarding call, toasts, navigation. Stateful page code is a class whose methods change its fields: `BlogEditor.Editor` and `FinancialForm.Form`.

`value || null` maps 0 to `null` as well, so a 0 is stored exactly like a missing value (`Valuation.ZeroStoredAsMissing`).

## Model

| member | source | states |
|---|---|---|
| SyncLeads.TagOf | supabase/functions/sync-leads/index.ts:32-84 | each known lead kind's `lead_type` tag is classified back as that kind by the `===` chain |
| SyncLeads.Classify | supabase/functions/sync-leads/index.ts:32-110 | a value selects a known branch if and only if it is one of the four tag strings |
| SyncLeads.SourceOf | supabase/functions/sync-leads/index.ts:38-105 | every fixed `source` literal is a `capittal_` name |
| SyncLeads.SourcesDistinct | supabase/functions/sync-leads/index.ts:43-105 | the four fixed `source` literals are pairwise different, so `source` identifies the kind |
| SyncLeads.MapLead | supabase/functions/sync-leads/index.ts:29-110 | an unknown type gives `{}` (exactly then). Each known type sets `lead_type` to its tag, `source` to its literal, `created_at` to now, and copies `ip_address`/`user_agent`. Its renamings are exact (`user_name`→`full_name`, `contact_name`→`full_name`, `company_name`→`company`, …) and the financial fields are copied unchanged. Each kind's row has no column outside its object literal: the columns only the other kinds set stay unset. Download and valuation leads are always `new`; contact and collaborator leads keep a truthy `data.status` and otherwise get `new` or `pending` |
| SyncLeads.ReadEnvelope | supabase/functions/sync-leads/index.ts:21-110 | a body that fails to parse raises its error, and a JSON `null` body raises the destructuring error. A known type with nullish `data` raises and an unknown one does not. Otherwise the kind is the classified tag and the fields are `data`'s |
| SyncLeads.Handle | supabase/functions/sync-leads/index.ts:16-158 | OPTIONS answers 200 with a null body and the CORS headers, inserting nothing. Every other answer carries CORS plus JSON content type. A read error gives 500 `{success:false, error}` without insert. Otherwise exactly the mapped row is inserted: success gives 200 `{success:true, data}`, and an insert error gives 500 with the message and the attempted row. `success` holds iff status is 200 on a non-preflight |
| SyncLeads.UnknownTypeStillInserted | supabase/functions/sync-leads/index.ts:29-117 | an unrecognised `type` raises nothing, even with missing `data`, and the row handed to the store is `{}` |
| Valuation.InsertData | src/hooks/useSupabaseValuation.tsx:58-83 | the three notification flags are always false; `ip_address` and `user_agent` are the client details given |
| Valuation.FalsyInputsDefaulted | src/hooks/useSupabaseValuation.tsx:59-77 | column by column, a truthy input is stored as given. A falsy one is stored as `''` in the five text columns and `null` in the fourteen others |
| Valuation.StoredFalsyValuesAreDefaults | src/hooks/useSupabaseValuation.tsx:59-77 | the only falsy values a stored row holds are `''` (text columns) and `null` (the others), never `undefined`, `false` or 0 |
| Valuation.ZeroStoredAsMissing | src/hooks/useSupabaseValuation.tsx:67-70 | a revenue, EBITDA or growth rate of 0 yields the same row as a missing one; revenue 0 is stored as `null` |
| Valuation.SaveValuation | src/hooks/useSupabaseValuation.tsx:38-136 | a failed IP lookup leaves `ip_address` `''` and the insert still happens, with the user agent kept. On success the trace is insert, one forward of the same row tagged `company_valuation`, then the success toast, whatever the forward answers; the data is returned. On a store error the trace is insert then the destructive toast, with no forward, and `Error de Supabase: …` is raised. The forward happens iff the insert succeeded |
| Valuation.SaveToolRating | src/hooks/useSupabaseValuation.tsx:138-172 | a failed IP lookup raises before anything is stored, and so does a nullish rating. Otherwise the seven rating properties plus IP and user agent are inserted once and the store's answer, data or error, is passed on. It never forwards or toasts |
| Valuation.RatingRowOf | src/hooks/useSupabaseValuation.tsx:149-159 | the rating row takes the seven rating properties exactly as given, with no `\|\|` defaults (a 0 or `null` stays as it is), plus the looked-up IP and the user agent as a string |
| ValuationForwarding.ForwardedRowIsValuation | src/hooks/useSupabaseValuation.tsx:104-109 | the forwarded body is read by `sync-leads` as a company-valuation lead whose `data` is the stored row |
| ValuationForwarding.ForwardedRowBecomesLead | supabase/functions/sync-leads/index.ts:82-109 | the lead built from a forwarded row carries the row's contact name, company name, email, phone, CIF, industry, employee range, location, figures, valuation range and client details unchanged |
| Slug.Lower | src/pages/admin/BlogEditorPage.tsx:228 | no result is an ASCII capital; each ASCII capital becomes its own small letter; the characters the filter keeps are unchanged |
| Slug.Lowercase | src/pages/admin/BlogEditorPage.tsx:228 | `toLowerCase` keeps the length, leaves no ASCII capital, and leaves the characters the filter keeps where they are |
| Slug.Fold | src/pages/admin/BlogEditorPage.tsx:229-234 | the accent replacements leave the characters the filter keeps alone, and anything they change becomes `a`, `e`, `i`, `o`, `u` or `n` |
| Slug.FoldAccents | src/pages/admin/BlogEditorPage.tsx:229-234 | the six accent `replace` calls keep the length and leave the characters the filter keeps where they are |
| Slug.DropDisallowed | src/pages/admin/BlogEditorPage.tsx:235 | the filter never lengthens the string |
| Slug.CollapseRuns | src/pages/admin/BlogEditorPage.tsx:236-237 | a run replacement never lengthens the string and empties only the empty string |
| Slug.HyphenateSpaces | src/pages/admin/BlogEditorPage.tsx:236 | replacing whitespace runs never lengthens the string and empties only the empty string |
| Slug.SquashHyphens | src/pages/admin/BlogEditorPage.tsx:237 | squashing hyphen runs never lengthens the string and empties only the empty string |
| Slug.Slugify | src/pages/admin/BlogEditorPage.tsx:228-237 | a slug is never longer than its title |
| Slug.DropRun | src/pages/admin/BlogEditorPage.tsx:236-237 | the leading run that one greedy match consumes: what remains is a suffix, does not start with a class character, and is shorter when there was a run |
| Slug.DropRunDropsClass | src/pages/admin/BlogEditorPage.tsx:236-237 | the consumed run consists of class characters only |
| Slug.DropDisallowedKeeps | src/pages/admin/BlogEditorPage.tsx:235 | the filter's output holds only `a-z`, `0-9`, whitespace and `-` taken from the input, and it is the identity on such strings |
| Slug.DropDisallowedEnds | src/pages/admin/BlogEditorPage.tsx:235 | an allowed first or last character survives the filter in that position |
| Slug.CollapseRunsChars | src/pages/admin/BlogEditorPage.tsx:236-237 | a global run replacement outputs only the replacement or input characters outside the class |
| Slug.CollapseRunsFirst | src/pages/admin/BlogEditorPage.tsx:236-237 | a leading run becomes a leading replacement, and otherwise the first character stays |
| Slug.CollapseRunsLast | src/pages/admin/BlogEditorPage.tsx:236-237 | a trailing run becomes a trailing replacement |
| Slug.CollapseRunsNoClassLast | src/pages/admin/BlogEditorPage.tsx:236-237 | a last character outside the class stays last |
| Slug.CollapseRunsSeparated | src/pages/admin/BlogEditorPage.tsx:236-237 | when the replacement is in the class, no two class characters are adjacent in the output |
| Slug.CollapseRunsNoClass | src/pages/admin/BlogEditorPage.tsx:236-237 | with no class character present, the replacement changes nothing |
| Slug.SquashHyphensSingles | src/pages/admin/BlogEditorPage.tsx:237 | squashing hyphens is the identity on strings without `--` |
| Slug.SlugCharsOnly | src/pages/admin/BlogEditorPage.tsx:228-237 | every slug holds only `a-z`, `0-9` and `-` |
| Slug.SlugHasNoDoubleHyphen | src/pages/admin/BlogEditorPage.tsx:228-237 | no slug holds two consecutive hyphens |
| Slug.SlugCharsUnmapped | src/pages/admin/BlogEditorPage.tsx:228-234 | lowercasing and accent folding leave slug characters unchanged |
| Slug.SlugFixedPoint | src/pages/admin/BlogEditorPage.tsx:228-237 | a string of slug characters without `--` is its own slug |
| Slug.SlugifyIdempotent | src/pages/admin/BlogEditorPage.tsx:228-237 | deriving a slug from a slug gives the same slug |
| Slug.SlugKeepsLeadingHyphen | src/pages/admin/BlogEditorPage.tsx:228-237 | a title starting with whitespace or `-` gives a slug starting with `-`; nothing is trimmed |
| Slug.SlugKeepsTrailingHyphen | src/pages/admin/BlogEditorPage.tsx:228-237 | a title ending with whitespace or `-` gives a slug ending with `-` |
| Slug.FilteredEndsLikeTitle | src/pages/admin/BlogEditorPage.tsx:228-235 | a final whitespace or `-` survives lowercasing, folding and filtering |
| Slug.HyphenateEndsWithHyphen | src/pages/admin/BlogEditorPage.tsx:236 | after whitespace runs become `-`, a final whitespace or `-` is a final `-` |
| Slug.AccentsFoldToBase | src/pages/admin/BlogEditorPage.tsx:228-234 | each accented vowel of the five classes and `ñ`, capital or small, becomes its base letter rather than being dropped |
| Slug.WordCharFolds | src/pages/admin/BlogEditorPage.tsx:228-235 | ASCII letters, digits and the accented letters become `a-z` or `0-9`, which the filter keeps |
| Slug.WordSlug | src/pages/admin/BlogEditorPage.tsx:228-237 | a title of such characters keeps its length, and each accented letter stands in the slug as its base letter |
| SlugContent.DropDisallowedAppend | src/pages/admin/BlogEditorPage.tsx:235 | the filter works character by character: filtering a concatenation concatenates the filtered parts, so nothing it keeps is reordered |
| SlugContent.FilteredWords | src/pages/admin/BlogEditorPage.tsx:235 | after the filter, the letters and digits of the string are all there and in order |
| SlugContent.DropRunWords | src/pages/admin/BlogEditorPage.tsx:236-237 | consuming a run removes no letter or digit |
| SlugContent.CollapseRunsWords | src/pages/admin/BlogEditorPage.tsx:236-237 | replacing runs of whitespace or hyphens by `-` keeps every other character, in order |
| SlugContent.SlugWords | src/pages/admin/BlogEditorPage.tsx:228-237 | the letters and digits of a slug are exactly those of the lowercased, accent-folded title, in order |
| SlugContent.WordCharSurvives | src/pages/admin/BlogEditorPage.tsx:228-237 | in any title, every ASCII letter, digit or accented letter appears in the slug as its small base letter |
| SlugContent.CollapseRunsAppend | src/pages/admin/BlogEditorPage.tsx:236-237 | where a concatenation does not join two runs, replacing runs in it concatenates the replaced parts |
| SlugContent.PreparedJoin | src/pages/admin/BlogEditorPage.tsx:228-235 | lowercasing, folding and filtering pass separators between two title parts through unchanged |
| SlugContent.HyphenateJoin | src/pages/admin/BlogEditorPage.tsx:236 | whitespace replacement on word, separators, word splits at the separators |
| SlugContent.SquashJoin | src/pages/admin/BlogEditorPage.tsx:237 | hyphen squashing turns the hyphens between two words into exactly one |
| SlugContent.SlugJoin | src/pages/admin/BlogEditorPage.tsx:228-237 | two title parts ending and starting with a word character, around any run of whitespace and hyphens, give the two slugs joined by exactly one `-` |
| BlogEditor.Merge | src/pages/admin/BlogEditorPage.tsx:129 | `{...post, ...updates}`: every property the update carries is taken from it, every other property is the post's, and `{}` changes nothing |
| BlogEditor.MergeNothing | src/pages/admin/BlogEditorPage.tsx:129 | merging `{}` leaves the post unchanged |
| BlogEditor.MergeTwice | src/pages/admin/BlogEditorPage.tsx:129 | two updates in a row equal one update with their properties combined, the later winning |
| BlogEditor.MergeIdempotent | src/pages/admin/BlogEditorPage.tsx:129 | applying the same update twice is applying it once |
| BlogEditor.NextMetaTitle | src/pages/admin/BlogEditorPage.tsx:238 | `post.meta_title \|\| title`: a non-empty meta title is kept, the result is the old meta title or the typed title, and it is empty iff both are |
| BlogEditor.TitlePatch | src/pages/admin/BlogEditorPage.tsx:226-239 | merging the title edit's update sets the title, its slug and the next meta title, and nothing else |
| BlogEditor.FirstNonEmpty | src/pages/admin/BlogEditorPage.tsx:238 | the reference for the meta title: empty iff every typed title is empty, otherwise the first non-empty one |
| BlogEditor.MetaTitleSticks | src/pages/admin/BlogEditorPage.tsx:238 | once `meta_title` is non-empty, no later title edit changes it |
| BlogEditor.MetaTitleIsFirstTitle | src/pages/admin/BlogEditorPage.tsx:238 | from an empty `meta_title`, it becomes the first non-empty title typed |
| BlogEditor.NewPost | src/pages/admin/BlogEditorPage.tsx:57-73 | a new post is unpublished and not featured, with reading time 5, no tags, author `Equipo Capittal`, empty id, title, content and meta title, and both timestamps now |
| BlogEditor.NewPostNotAutosaved | src/pages/admin/BlogEditorPage.tsx:34 | a fresh new post never passes the autosave content check |
| BlogEditor.PostData | src/pages/admin/BlogEditorPage.tsx:92-95 | `published_at` is now iff the post is published, `null` iff not, and every other field is the post's |
| BlogEditor.FindById | src/pages/admin/BlogEditorPage.tsx:44 | `posts.find`: a post is found iff some post has the id, and it is the first such post |
| BlogEditor.Editor.constructor | src/pages/admin/BlogEditorPage.tsx:24-27 | the page starts with no post, not saving, and no unsaved changes |
| BlogEditor.Editor.Load | src/pages/admin/BlogEditorPage.tsx:42-75 | an existing route loads the matching post; if there is none, it toasts "Post no encontrado" and navigates to the blog list, leaving the post. Any other route starts the new-post defaults. The flags are untouched |
| BlogEditor.Editor.UpdatePostData | src/pages/admin/BlogEditorPage.tsx:127-131 | without a post nothing changes; otherwise the post becomes the merge and `hasUnsavedChanges` becomes true |
| BlogEditor.Editor.EditTitle | src/pages/admin/BlogEditorPage.tsx:226-239 | a title edit sets the title, the derived slug and `meta_title \|\| title`, leaves every other field, and marks the post dirty |
| BlogEditor.Editor.StartSave | src/pages/admin/BlogEditorPage.tsx:77-101 | the save up to its `await`: without a post, or on a manual save that fails validation, it toasts or does nothing and starts no save. Otherwise `saving` becomes true, which disables the save button, and the update (existing route) or creation of the post with `published_at` is issued, leaving the post and the dirty flag as they are |
| BlogEditor.Editor.FinishSave | src/pages/admin/BlogEditorPage.tsx:98-124 | the save after its `await`. On success: the navigation to a created post's id, error clearing, and on a manual save the "Guardado" toast; the dirty flag clears even if the post was edited while the save was pending. On failure the destructive toast, with the dirty flag kept. `saving` ends false and the button is enabled again either way |
| BlogEditor.Editor.HandleSave | src/pages/admin/BlogEditorPage.tsx:77-125 | a save whose store call answers before anything else happens on the page, made of `StartSave` then `FinishSave`: without a post nothing happens. A manual save that fails validation toasts "Campos requeridos" with no store call and no flag change; autosave skips validation. Otherwise the post with `published_at` is updated (existing route) or created (navigating to the new id). On success the dirty flag clears, errors clear, and a manual save toasts. On failure a destructive toast is shown with the dirty flag kept. `saving` ends false either way |
| BlogEditor.Editor.AutosaveTimer | src/pages/admin/BlogEditorPage.tsx:31-37 | the timer does nothing unless there are unsaved changes and both title and content are non-empty. Then it stores without validating. On success the trace is the store call, the navigation for a created post and the error clearing, with no confirmation toast, and the dirty flag clears. On failure the trace is the store call and the destructive toast, and the flag stays |
| FinancialForm.IsFieldValid | src/components/valuation/forms/FinancialDataForm.tsx:34-37 | a missing value is invalid; with a non-negative minimum a valid value is non-zero and positive, so 0 and negative amounts are invalid |
| FinancialForm.GetFieldClassName | src/components/valuation/forms/FinancialDataForm.tsx:39-55 | green only for a valid non-zero value, red only for an invalid required one, and neither unless touched or `showValidation` |
| FinancialForm.ShouldShowCheckIcon | src/components/valuation/forms/FinancialDataForm.tsx:57-62 | the icon shows exactly when the field's class is green, whether the field is required or not; never before the field is touched or `showValidation` is on |
| FinancialForm.ValidMeansPositive | src/components/valuation/forms/FinancialDataForm.tsx:34-37 | with a non-negative minimum, a valid value is present and positive; 0 and negative amounts are invalid |
| FinancialForm.UntouchedIsNeutral | src/components/valuation/forms/FinancialDataForm.tsx:44-46 | untouched and without `showValidation`, the class is neutral whatever the value |
| FinancialForm.CheckIconIffGreen | src/components/valuation/forms/FinancialDataForm.tsx:48-62 | the check icon shows exactly when the class is green |
| FinancialForm.RedConditions | src/components/valuation/forms/FinancialDataForm.tsx:50-54 | red iff invalid, required, and either `showValidation` or touched without a value |
| FinancialForm.OptionalNeverRed | src/components/valuation/forms/FinancialDataForm.tsx:50-54 | a field that is not required is never red |
| FinancialForm.TouchedInvalidAmountNeutral | src/components/valuation/forms/FinancialDataForm.tsx:48-54 | a touched required field with a non-zero invalid amount is neutral without `showValidation` and red with it |
| FinancialForm.EnteredAmount | src/components/valuation/forms/FinancialDataForm.tsx:84 | `parseFloat(text) \|\| 0` always stores a number: the parsed one, or 0 for `NaN` |
| FinancialForm.WithAmountSetsOnlyField | src/components/valuation/forms/FinancialDataForm.tsx:84 | `updateField` on an amount sets that field and leaves every other field unchanged |
| FinancialForm.Form.constructor | src/components/valuation/forms/FinancialDataForm.tsx:18 | the form starts with an empty touched set over the caller's data |
| FinancialForm.Form.RequiredMessageIsRed | src/components/valuation/forms/FinancialDataForm.tsx:95-97 | the "Este campo es obligatorio" message under revenue or EBITDA only appears with a red border |
| FinancialForm.Form.HandleBlur | src/components/valuation/forms/FinancialDataForm.tsx:20-22 | blurring adds the field to the touched set, which is `TouchedAfter` of the one blur, and changes nothing else |
| FinancialForm.Form.UpdateAmount | src/components/valuation/forms/FinancialDataForm.tsx:84 | an amount update sets that field only and leaves the touched set |
| FinancialForm.Form.EnterAmount | src/components/valuation/forms/FinancialDataForm.tsx:111 | typing into an amount input stores the parsed number, or 0 |
| FinancialForm.Form.ChooseNoAdjustments | src/components/valuation/forms/FinancialDataForm.tsx:139-143 | "No" sets `hasAdjustments` false and the amount 0, and marks `hasAdjustments` touched |
| FinancialForm.Form.ChooseYesAdjustments | src/components/valuation/forms/FinancialDataForm.tsx:154-158 | "Yes" sets only `hasAdjustments` true, leaving the amount, and marks it touched |
| FinancialForm.BlurAfterBlurs | src/components/valuation/forms/FinancialDataForm.tsx:20-22 | one more blur after a sequence of blurs adds just that field, so successive `HandleBlur` calls give `TouchedAfter` of the whole sequence |
| FinancialForm.BlursOnlyGrow | src/components/valuation/forms/FinancialDataForm.tsx:20-22 | after any sequence of blurs, every earlier touched field and every blurred field is in the touched set |

## Left out

- Network and stores. The Supabase clients, `Deno.env`, `serve`, the `fetch` to ipify and `functions.invoke` are parameters: outcomes given as `Result` values.
- Logging. The `console.*` calls are not modelled.
- Response serialisation. The `Response` objects are modelled as status, headers and a JSON body datatype. JSON serialisation, which drops `undefined` properties, is not modelled; an unset column is `Undefined`.
- Error wording. The text of JavaScript's runtime `TypeError`s is a fixed stand-in string (`NullBodyError`, `NullDataError`).
- Numbers. They are integers: fractions, `NaN` and `-0` are not modelled. `parseFloat` is a parameter (`None` for `NaN`), and no arithmetic on valuations is modelled.
- `formatCurrency`. The `Intl.NumberFormat` call, locale formatting, is not modelled.
- ValuationResult: the nested `valuationRange` and `multiples` objects are flattened into `rangeMin`, `rangeMax` and `ebitdaMultipleUsed` (src/hooks/useSupabaseValuation.tsx:75-77). The `TypeError` a missing nested object raises is not modelled. In the code that error reaches the outer `catch`, which shows the destructive toast and rethrows, with nothing inserted.
- Slug.Lower: `toLowerCase` is modelled for ASCII and the Latin-1 capitals only. Full Unicode case mapping is not modelled, including the Kelvin sign, `İ`, and multi-character results.
- React timing. `setTimeout`'s five-minute delay, the `useEffect` dependency arrays and the clearing of the timer are not modelled. The timer is the `AutosaveTimer` call and only its guard is kept.
- BlogEditor.Editor.AutosaveTimer: checks its guard on, and saves, the current post. In the code the timer's callback uses the `post` and `handleSave` captured when the effect last ran, which watches only the title and content. An autosave can therefore store an older post, and then mark later edits to other fields as saved. That stale capture is not modelled.
- Routing. `navigate` is recorded as an effect, and no routing is modelled.
- Validation. `useBlogValidation`'s `validatePost` is a boolean parameter and its error map is not modelled; `clearErrors` is an effect.
- Loading. The `isLoading` flag of `useBlogPosts` is not modelled.
- Post fields. src/types/blog.ts is not part of this model, so a post has the fields of the new-post literal plus `published_at`.
- BlogEditor.Merge: an update object that carries a property explicitly set to `undefined` is not modelled, so a patch either carries a value or omits the property.
- BlogEditor.Editor.EditTitle: requires a loaded post, because the title input is only rendered once `post` is set.
- Page rendering. The rest of the page is presentation: the preview tab, the markup of the content, sidebar and SEO panels (their edits go through `updatePostData`, modelled by `UpdatePostData`), the public preview button, and the markdown rendering. The AI assistant is commented out in the page and renders nothing.
- FinancialForm.FinancialData: `hasAdjustments` is a boolean, so an `undefined` value, which the "No" radio shows as checked, is modelled as `false`.
- Parent state. The caller's `companyData`, changed through `updateField`, is the `data` field of the form object.
- Field class strings. The CSS class strings are the three-valued `FieldClass`, and the check-icon and hint markup are not modelled.
- Other files. The remaining components and pages are presentation or static data with no logic to state: the team carousel, the admin sidebar menu, the empty states, the header, the operation preview, the due-diligence step list, the "Nosotros" page, the loading button, the blog editor content panel and the service re-exports. The admin users manager and the collaborator application form wrap hooks that are not part of this model. Their only local logic, a role-label lookup with a viewer fallback and a form reset, is not modelled.
