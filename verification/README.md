# Business dashboard: localization, onboarding, session and list filters

This project is a Dafny model of the logic at the core of a small React
business dashboard. It covers:

- **The language context.** This holds the `translations` catalog for `en`,
  `kn`, `hi`, `ml`, `te` and `ta`, and the active `language` cell that
  `setLanguage` replaces. The `t(key)` lookup splits a key on `.` and walks
  the active catalog. It returns the string leaf it reaches, or else the key
  unchanged. The catalog is a tree (`Localization.Node`) built the way an
  object literal is built. The six catalogs have the same keys in the same
  order, so the keys are listed once (`Translations.TopKeys`,
  `Translations.SidebarKeys`) and each language gives its texts in that
  order. The lookup appears twice: as the function `Localization.Translate`,
  which the lemmas are about, and as the loop `Localization.LanguageProvider.T`,
  which is proved equal to it.
- **The auth context.** This is a single `user` cell changed by `login`,
  `signup`, `logout`, `updateUser` and `completeOnboarding`. Each change is a
  pure function (`Auth.LoginResult`, `Auth.Updated`, `Auth.Onboarded`, …).
  The `Auth.AuthProvider` class updates its `user` field as those functions
  say.
- **The onboarding wizard.** Its state is the step (1-3), the three-field
  form and a per-field error map. `validateStep`, `handleNext`,
  `handleInputChange` and the Back button are pure transitions on
  `Onboarding.Wizard`. The `Onboarding.OnboardingFlow` class has the three
  state cells and methods proved against those transitions. `handleNext`
  calls the auth provider's `CompleteOnboarding` directly, as the component
  does through the context.
- **The products and campaigns pages.** Each has a list filter (a
  case-insensitive name search, plus a status selector for products), the
  status badge text, colour and action, and the empty-state hint.
  `Array.prototype.filter` is `ListFilter.Filter`. The string built-ins used
  on these pages and by `t` are in `Text`: lower/upper case, `includes`,
  `trim`, `split`/`join` and `replace`.

A design property shows up in the model. The campaigns page asks `t` for
`campaigns.*` keys, but no catalog has a `campaigns` namespace. So every one
of those labels comes out as the raw key in every language
(`Campaigns.CampaignLabelsUntranslated`). This is what the code does. The
catalog has no intended texts for these keys, so the model keeps that
behaviour and does not record it as a defect.

## Model

| member | source | states |
|---|---|---|
| Text.LowerChar | src/components/pages/ProductsPage.tsx:68 | lower-casing maps an upper-case ASCII letter to the lower-case letter 32 code points above it ('A' to 'a') and leaves every other character as it is |
| Text.UpperChar | src/components/pages/CampaignsPage.tsx:207 | upper-casing maps a lower-case ASCII letter to the upper-case letter 32 code points below it ('a' to 'A') and leaves every other character as it is |
| Text.LowerUpperChar | src/components/pages/CampaignsPage.tsx:207 | upper-casing a character and then lower-casing it is the same as lower-casing it |
| Text.Lower | src/components/pages/ProductsPage.tsx:68 | `toLowerCase` keeps the length and lower-cases each character in place |
| Text.LowerIdempotent | src/components/pages/CampaignsPage.tsx:88 | lower-casing a second time changes nothing |
| Text.Includes | src/components/pages/ProductsPage.tsx:68 | every string includes the empty string, and a string never includes a longer one |
| Text.IncludesIff | src/components/pages/ProductsPage.tsx:68 | `includes` holds exactly when the needle occurs at some position of the haystack |
| Text.IncludesEmpty | src/components/pages/CampaignsPage.tsx:88 | every string includes the empty string |
| Text.TrimStart | src/components/onboarding/OnboardingFlow.tsx:35 | the result is a suffix of the input, does not start with whitespace, and only whitespace was removed |
| Text.TrimEnd | src/components/onboarding/OnboardingFlow.tsx:35 | the result is a prefix of the input, does not end with whitespace, and only whitespace was removed |
| Text.Trim | src/components/onboarding/OnboardingFlow.tsx:35 | the trimmed string is no longer than the input and neither starts nor ends with whitespace |
| Text.TrimEmptyIff | src/components/onboarding/OnboardingFlow.tsx:35 | `trim` yields the empty string exactly when the input is all whitespace (JavaScript's whitespace and line terminators) |
| Text.Split | src/contexts/LanguageContext.tsx:274 | `split` always yields at least one piece |
| Text.SplitPartsFree | src/contexts/LanguageContext.tsx:274 | no piece of a split contains the separator |
| Text.JoinSplit | src/contexts/LanguageContext.tsx:274 | joining the pieces with the separator gives back the key |
| Text.SplitJoin | src/contexts/LanguageContext.tsx:274 | splitting a join of separator-free pieces gives back the pieces |
| Text.SplitNoSep | src/contexts/LanguageContext.tsx:274 | a key without a dot is a single segment |
| Text.SplitPrefix | src/contexts/LanguageContext.tsx:274 | a dot-free first segment followed by a dot is split off as the first piece |
| Text.ReplaceFirst | src/components/pages/ProductsPage.tsx:168 | `replace` with a one-character pattern keeps the length |
| Text.FirstIndex | src/components/pages/ProductsPage.tsx:168 | the first occurrence of a character is at a position holding it, with no earlier occurrence |
| Text.ReplaceFirstSpec | src/components/pages/ProductsPage.tsx:168 | without the pattern the string is unchanged; otherwise only its first occurrence becomes the replacement and everything else stays |
| Text.ReplaceFirstAt | src/components/pages/ProductsPage.tsx:168 | in `a + from + b` with no `from` in `a`, the result is `a + to + b` |
| Translations.TopTexts | src/contexts/LanguageContext.tsx:5-246 | each language has one top-level text per top-level key |
| Translations.SidebarTexts | src/contexts/LanguageContext.tsx:5-246 | each language has one `sidebar` text per `sidebar` key |
| Translations.TopKeysDistinct | src/contexts/LanguageContext.tsx:6-44 | no catalog repeats a top-level key |
| Translations.SidebarKeysDistinct | src/contexts/LanguageContext.tsx:34-44 | no catalog repeats a key inside `sidebar` |
| Translations.TopKeysUndotted | src/contexts/LanguageContext.tsx:6-44 | no top-level key contains a dot, so each is one segment of a dotted path |
| Translations.SidebarKeysUndotted | src/contexts/LanguageContext.tsx:34-44 | neither the `sidebar` namespace nor any key inside it contains a dot |
| Translations.SidebarNotTopKey | src/contexts/LanguageContext.tsx:34 | the `sidebar` namespace does not clash with a top-level string key |
| Localization.Entries | src/contexts/LanguageContext.tsx:6-44 | an object literal of string entries has exactly the listed keys, each bound to a string leaf taken from the texts |
| Localization.EntriesAt | src/contexts/LanguageContext.tsx:6-44 | when the keys are distinct, each key is bound to its own text |
| Localization.Walk | src/contexts/LanguageContext.tsx:277-282 | an empty path stays at the node, and no segment can be followed below a string |
| Localization.WalkAppend | src/contexts/LanguageContext.tsx:277-282 | walking a path in two parts is walking the second part from where the first part ends, and a failed first part fails the whole |
| Localization.Lookup | src/contexts/LanguageContext.tsx:274-285 | the result is either the key itself or the string leaf the key's segments lead to |
| Localization.Translate | src/contexts/LanguageContext.tsx:273-286 | `t(key)` is either the key itself or the string leaf the key's segments lead to in the active language's catalog |
| Localization.CatalogLeafPaths | src/contexts/LanguageContext.tsx:274-285 | a segment path reaches a string exactly when it is a top-level key or `sidebar` followed by a sidebar key, and that string is one of the language's texts |
| Localization.SameKeyTree | src/contexts/LanguageContext.tsx:5-246 | a key resolves to a string under one language exactly when it does under any other |
| Localization.LookupTotal | src/contexts/LanguageContext.tsx:274-285 | the lookup over any language's catalog returns one of that language's texts for a leaf path and the key for every other key |
| Localization.TranslateTotal | src/contexts/LanguageContext.tsx:273-286 | `t` always returns either one of the active catalog's texts (for a leaf path) or the key itself (for every other key) |
| Localization.LookupTopKey | src/contexts/LanguageContext.tsx:274-285 | looking up a top-level key returns that key's text |
| Localization.LookupSidebarKey | src/contexts/LanguageContext.tsx:274-285 | looking up `sidebar.<k>` returns the sidebar text of `k` |
| Localization.TranslateTopKey | src/contexts/LanguageContext.tsx:273-286 | in every language a top-level key translates to its own text |
| Localization.TranslateSidebarKey | src/contexts/LanguageContext.tsx:273-286 | in every language `sidebar.<k>` translates to the sidebar text of `k` |
| Localization.TranslateNestedLeafExample | src/contexts/LanguageContext.tsx:35 | `sidebar.dashboard` is "Dashboard" in `en` |
| Localization.TranslateTopLeafExample | src/contexts/LanguageContext.tsx:8 | `welcomeBack` is "Welcome back" in `en` |
| Localization.LookupNamespace | src/contexts/LanguageContext.tsx:285 | over any language's catalog, the bare namespace `sidebar` is returned as the key |
| Localization.LookupPastLeaf | src/contexts/LanguageContext.tsx:277-282 | over any language's catalog, a top-level key followed by one more segment is returned as the key |
| Localization.LookupUnknownNamespace | src/contexts/LanguageContext.tsx:277-282 | over any language's catalog, a two-segment key whose first segment is absent is returned as the key |
| Localization.TranslateNamespaceExample | src/contexts/LanguageContext.tsx:285 | a key that stops at a namespace (`sidebar`) returns the key |
| Localization.TranslatePastLeafExample | src/contexts/LanguageContext.tsx:277-282 | a segment below a string (`welcomeBack.x`) returns the key |
| Localization.TranslateMissingExample | src/contexts/LanguageContext.tsx:277-282 | an absent key returns the key in every language |
| Localization.UnknownNamespaceFallsBack | src/contexts/LanguageContext.tsx:277-282 | a two-segment key whose first segment is not in the catalog returns the key in every language |
| Localization.LanguageProvider.constructor | src/contexts/LanguageContext.tsx:271 | the active language starts as `en` |
| Localization.LanguageProvider.SetLanguage | src/contexts/LanguageContext.tsx:271 | `setLanguage` makes the given language the active one |
| Localization.LanguageProvider.T | src/contexts/LanguageContext.tsx:273-286 | the segment-by-segment loop with its early return computes the same value as the lookup function, and it changes no state |
| Localization.SetLanguageTwice | src/contexts/LanguageContext.tsx:271 | setting the same language twice gives the same translations as setting it once |
| Auth.NewUser | src/contexts/AuthContext.tsx:45-50 | a freshly authenticated user has the mock id, the given name and email, onboarding not complete and no business data |
| Auth.LoginResult | src/contexts/AuthContext.tsx:39-54 | login succeeds exactly when email and password are non-empty; on success the user is the mock user (id "1", "John Doe", the email, onboarding not complete); on failure the user is unchanged |
| Auth.SignupResult | src/contexts/AuthContext.tsx:56-71 | signup succeeds exactly when name, email and password are non-empty; on success the user has the given name and email, id "1" and onboarding not complete; on failure the user is unchanged |
| Auth.Merge | src/contexts/AuthContext.tsx:78 | the spread `{...prev, ...userData}` takes every supplied field from the patch and every other field from the user |
| Auth.Updated | src/contexts/AuthContext.tsx:77-79 | `updateUser` leaves a null user null and turns a present user into its merge with the patch |
| Auth.Onboarded | src/contexts/AuthContext.tsx:81-87 | completing onboarding keeps id, name and email, sets the three business fields and the flag, and leaves a null user null |
| Auth.OnboardedIsUpdate | src/contexts/AuthContext.tsx:81-87 | completing onboarding is an `updateUser` with the business data and `onboardingComplete: true` |
| Auth.UpdateNoChange | src/contexts/AuthContext.tsx:77-79 | an empty patch leaves the user unchanged |
| Auth.UpdateIdempotent | src/contexts/AuthContext.tsx:77-79 | applying a patch twice is the same as applying it once |
| Auth.UpdateCompose | src/contexts/AuthContext.tsx:77-79 | two updates in a row are one update with the combined patch, later fields winning |
| Auth.LoginResetsOnboarding | src/contexts/AuthContext.tsx:44-50 | a successful login, whatever the previous user, leaves onboarding not complete and no business name, industry or size |
| Auth.SignupResetsOnboarding | src/contexts/AuthContext.tsx:61-67 | a successful signup, whatever the previous user, leaves onboarding not complete and no business name, industry or size |
| Auth.AuthProvider.constructor | src/contexts/AuthContext.tsx:37 | the user starts as null |
| Auth.AuthProvider.Login | src/contexts/AuthContext.tsx:39-54 | the user cell and the returned flag are those of the login transition |
| Auth.AuthProvider.Signup | src/contexts/AuthContext.tsx:56-71 | the user cell and the returned flag are those of the signup transition |
| Auth.AuthProvider.Logout | src/contexts/AuthContext.tsx:73-75 | the user is null afterwards, from any state |
| Auth.AuthProvider.UpdateUser | src/contexts/AuthContext.tsx:77-79 | the user is the merge of the old user and the patch, or stays null |
| Auth.AuthProvider.CompleteOnboarding | src/contexts/AuthContext.tsx:81-87 | the user is the old user with the business data and the flag set, or stays null |
| Onboarding.Set | src/components/onboarding/OnboardingFlow.tsx:66 | `{...prev, [field]: value}` sets the edited field and keeps the other two |
| Onboarding.StepErrors | src/components/onboarding/OnboardingFlow.tsx:30-53 | the error map has at most one entry, and only for the field of a step 1 to 3, with that field's message |
| Onboarding.StepErrorsCharacterized | src/components/onboarding/OnboardingFlow.tsx:30-53 | validation passes exactly when the step's field is filled (a non-blank name after `trim`; a non-empty industry or size); on failure the error map holds just that field with its message |
| Onboarding.ValidationIgnoresOptions | src/components/onboarding/OnboardingFlow.tsx:39-48 | validation checks presence only: a non-empty value passes even if it is not one of the offered options |
| Onboarding.OptionsPassValidation | src/components/onboarding/OnboardingFlow.tsx:9-18 | every offered industry and business size passes its step's validation |
| Onboarding.OptionsNonEmpty | src/components/onboarding/OnboardingFlow.tsx:9-18 | none of the offered industry and size values is the empty value the selects start from |
| Onboarding.Next | src/components/onboarding/OnboardingFlow.tsx:55-63 | Continue keeps the form, replaces the errors with the fresh map, either stays or advances one step without passing step 3, and hands over only the current form without moving |
| Onboarding.Edit | src/components/onboarding/OnboardingFlow.tsx:65-70 | editing keeps the step and the set of fields with an error entry, and stores the value in the edited field |
| Onboarding.Back | src/components/onboarding/OnboardingFlow.tsx:245-246 | Back keeps the form and the errors, stays or goes one step back, and keeps the step within 1 to 3 |
| Onboarding.InitialState | src/components/onboarding/OnboardingFlow.tsx:22-28 | the wizard starts on step 1 with all three fields empty and no errors |
| Onboarding.TransitionsKeepInv | src/components/onboarding/OnboardingFlow.tsx:55-70 | Continue, editing and Back keep the step within 1 to 3 |
| Onboarding.NextOutcome | src/components/onboarding/OnboardingFlow.tsx:55-63 | Continue replaces the errors with the fresh map; on failure the step and form stay; a pass before step 3 advances by exactly one; a pass at step 3 hands over the form and keeps the step |
| Onboarding.CompletionOnlyAtLastStep | src/components/onboarding/OnboardingFlow.tsx:57-61 | the form is handed over exactly when Continue is pressed on step 3 with the size selected |
| Onboarding.EditFrame | src/components/onboarding/OnboardingFlow.tsx:65-70 | editing a field sets only that field; its error becomes empty if present, and no other error changes |
| Onboarding.BackKeepsData | src/components/onboarding/OnboardingFlow.tsx:245-246 | Back goes one step back, does nothing on step 1, and keeps the form and the errors |
| Onboarding.EmptyFirstStepBlocks | src/components/onboarding/OnboardingFlow.tsx:34-37 | Continue on the fresh wizard stays on step 1 with "Business name is required" |
| Onboarding.BlankNameBlocks | src/components/onboarding/OnboardingFlow.tsx:35 | a name of spaces only is rejected like an empty one |
| Onboarding.FillAndContinue | src/components/onboarding/OnboardingFlow.tsx:55-70 | filling the current step's field on an error-free wizard and pressing Continue advances with no errors before step 3 and hands over the form on step 3 |
| Onboarding.HappyPath | src/components/onboarding/OnboardingFlow.tsx:55-70 | filling each step in turn reaches step 3 and hands over exactly the data entered |
| Onboarding.OnboardingFlow.constructor | src/components/onboarding/OnboardingFlow.tsx:22-28 | the component mounts in the initial wizard state, whose step is within 1 to 3 |
| Onboarding.OnboardingFlow.ValidateStep | src/components/onboarding/OnboardingFlow.tsx:30-53 | the error map is replaced by the freshly built one, and the result is true exactly when that map is empty |
| Onboarding.OnboardingFlow.HandleNext | src/components/onboarding/OnboardingFlow.tsx:55-63 | the state follows the Continue transition and keeps the step within 1 to 3, and the auth user is onboarded with the form exactly when the transition hands it over |
| Onboarding.OnboardingFlow.HandleInputChange | src/components/onboarding/OnboardingFlow.tsx:65-70 | the state follows the edit transition and keeps the step within 1 to 3 |
| Onboarding.OnboardingFlow.HandleBack | src/components/onboarding/OnboardingFlow.tsx:245-246 | the state follows the Back transition and keeps the step within 1 to 3 |
| ListFilter.Filter | src/components/pages/ProductsPage.tsx:67 | a filter is never longer than the list, and the predicate holds of every element it keeps |
| ListFilter.FilterMembership | src/components/pages/ProductsPage.tsx:67 | an element is kept exactly when it is in the list and the predicate holds of it |
| ListFilter.FilterCount | src/components/pages/ProductsPage.tsx:67 | a kept element occurs in the result as often as in the list and a dropped one not at all, so duplicates are kept |
| ListFilter.FilterIsSubsequence | src/components/pages/CampaignsPage.tsx:87 | the result keeps the list's order (it is a subsequence of the list) |
| ListFilter.FilterMonotone | src/components/pages/ProductsPage.tsx:69 | a stronger predicate keeps a subsequence of what a weaker one keeps |
| ListFilter.FilterKeepsAll | src/components/pages/ProductsPage.tsx:67 | a predicate true of every element keeps the whole list |
| ListFilter.FilterIdempotent | src/components/pages/ProductsPage.tsx:67 | filtering twice by the same predicate is filtering once |
| ListFilter.FilterCongruent | src/components/pages/CampaignsPage.tsx:87 | predicates that agree on the list's elements give the same result |
| Products.FilteredProducts | src/components/pages/ProductsPage.tsx:67-71 | the list shown is no longer than the product list, and every product shown matches the search and the selected status |
| Products.FilteredProductsMembership | src/components/pages/ProductsPage.tsx:67-71 | a product is shown exactly when its lower-cased name contains the lower-cased search term and the status filter is `all` or its status |
| Products.FilteredProductsCount | src/components/pages/ProductsPage.tsx:67-71 | a product that passes the filter is shown as many times as it is listed, any other not at all |
| Products.FilteredProductsOrdered | src/components/pages/ProductsPage.tsx:67 | the products shown are a subsequence of the product list |
| Products.NoCriteriaShowsAll | src/components/pages/ProductsPage.tsx:68-69 | an empty search with `all` shows every product |
| Products.StatusNarrows | src/components/pages/ProductsPage.tsx:69 | with a specific status, every product shown has that status and the result is a subsequence of the `all` result |
| Products.SearchIgnoresCase | src/components/pages/ProductsPage.tsx:68 | a lower-cased search term shows the same products as the original term |
| Products.EmptyStateHint | src/components/pages/ProductsPage.tsx:223-226 | the hint is one of the two messages, and "Get started…" appears only with no search term and `all` selected |
| Products.EmptyStateHintTruthful | src/components/pages/ProductsPage.tsx:223-226 | the hint is "Try adjusting…" exactly when a search term or a status is set; if "Get started…" shows with nothing listed, there are no products |
| Products.StatusLabel | src/components/pages/ProductsPage.tsx:168 | the label text has the status's length, and a status without an underscore is its own label |
| Products.StatusLabelLowStock | src/components/pages/ProductsPage.tsx:168 | the label text for `low_stock` is "low stock" (the `capitalize` class only changes how it is displayed) |
| Products.StatusLabelFirstOnly | src/components/pages/ProductsPage.tsx:168 | for any status `a_b` where `a` has no underscore the label is `a b`: only the first underscore becomes a space, later ones stay |
| Products.StatusColor | src/components/pages/ProductsPage.tsx:73-84 | the gray class is used exactly for the statuses other than active, low_stock and inactive |
| Products.StatusIcon | src/components/pages/ProductsPage.tsx:86-97 | the trending icon is used exactly for active and the alert icon exactly for low_stock; all others get the package icon |
| Campaigns.FilteredCampaigns | src/components/pages/CampaignsPage.tsx:87-89 | the list shown is no longer than the campaign list, and every campaign shown has a name containing the search term, ignoring case |
| Campaigns.FilteredCampaignsMembership | src/components/pages/CampaignsPage.tsx:87-89 | a campaign is shown exactly when its lower-cased name contains the lower-cased search term |
| Campaigns.FilteredCampaignsCount | src/components/pages/CampaignsPage.tsx:87-89 | a matching campaign is shown as many times as it is listed, any other not at all |
| Campaigns.FilteredCampaignsOrdered | src/components/pages/CampaignsPage.tsx:87-89 | the campaigns shown are a subsequence of the campaign list |
| Campaigns.EmptySearchShowsAll | src/components/pages/CampaignsPage.tsx:87-89 | an empty search shows every campaign |
| Campaigns.SearchIgnoresCase | src/components/pages/CampaignsPage.tsx:88 | a lower-cased search term shows the same campaigns as the original term |
| Campaigns.StatusLabel | src/components/pages/CampaignsPage.tsx:207 | the badge is the status with its first character upper-cased and the rest unchanged |
| Campaigns.StatusLabelSameLetters | src/components/pages/CampaignsPage.tsx:207 | the badge differs from the status only in case |
| Campaigns.StatusLabelExamples | src/components/pages/CampaignsPage.tsx:207 | active, paused, completed and draft are shown as Active, Paused, Completed and Draft |
| Campaigns.ToggleAction | src/components/pages/CampaignsPage.tsx:259-267 | Pause is offered exactly for active, Play exactly for paused, and neither otherwise |
| Campaigns.StatusColor | src/components/pages/CampaignsPage.tsx:91-104 | the gray draft class is used exactly for draft and every unrecognised status |
| Campaigns.EmptyStateHintKey | src/components/pages/CampaignsPage.tsx:292-295 | the hint key is the adjust-search one exactly when the search term is non-empty, and otherwise the create-first one |
| Campaigns.CampaignLabelsUntranslated | src/components/pages/CampaignsPage.tsx:215 | every `campaigns.<name>` label is shown as the raw key in every language, because no catalog has that namespace |

## Left out

- The one-second `setTimeout` before login and signup take effect, and the promises they return, are not modelled. Each is modelled as one step that updates the state and returns the flag.
- Text.Lower, Text.UpperChar: case mapping is limited to ASCII letters. JavaScript's full Unicode case mapping, including characters that change length, is not modelled.
- Text strings are sequences of `char`. UTF-16 surrogate pairs are not modelled separately.
- `Intl.NumberFormat` for budgets and counts, `toLocaleDateString` for campaign dates, and the `price`/`stock` display are not modelled. They depend on a locale library.
- Localization.Walk: catalog nodes have their own keys only. JavaScript's `k in value` also sees inherited names such as `toString`. These never reach a string, so `t` returns the key for them either way.
- Auth.UserPatch: a `Partial<User>` property that is present but set to `undefined` is not distinguished from an absent one. The model treats both as "no change", whereas the spread would store `undefined`.
- Rendering, icons' appearance, animation and Tailwind classes beyond the status colour strings are not modelled.
- The mock product and campaign arrays are not modelled. The filters take any list, and a page's list is a parameter that nothing writes, matching the pages, which have no setter for it.
- React's batching of state updates is not modelled. A transition is applied as one atomic change of the component's cells.
- Onboarding.OnboardingFlow.HandleNext: a successful Continue on step 3 may be repeated. Nothing in the component prevents a second `completeOnboarding`, and the model does not either.
- The language selector component, the settings page, the dashboard home, the advice fetcher, the insight cards and the routing in the app shell are not part of this model.
