# Virtual try-on studio: a verified model of its decision logic

This project models, in Dafny, the logic at the centre of a virtual try-on
web application for fitness-wear stores. A store operator uploads a
customer's photo, picks a garment, and an edge function asks an image model
to dress the customer in it. The app keeps a credit balance per store, with
server procedures to check and to consume it; none of the modelled
generation paths calls them.

The model covers:

- the **try-on edge function**: input checks, stripping of a data-URL
  prefix, a loop of at most three model calls that classifies every reply
  (rate limit, quota, server error, safety block, missing image, thrown
  error), extraction of the first image part, and the best-effort caption;
- the **credits hook**: the balance view derived from a store record, the
  block rule (an ended trial first, then an empty balance), the day
  counters, the plan display names, and the translation of the two server
  procedures' answers;
- **access control**: the role predicates, the route guard, the sign-out and
  auth-change state updates, and the store slug derived at sign-up;
- the **screens that depend on them**: the credit widget, the blocked
  screen, the sidebar gauge and navigation, the processing modal's step
  loop, the try-on studio's selection state, and the product catalogue's
  search and "add product" dialog.

Network replies, the current time, auth events and user events are inputs.
A provider call is an abstract `ProviderReply`. Time is integer
milliseconds. Operations that loop or update state in place are methods:

- `CallWithRetry`, `ExtractImage` and `Describe` in the edge function;
- the `CreditsHook`, `AuthState`, `ProcessingModal`, `TryOnStudio` and
  `ProductsPage` classes.

Each such method is proved equal to a pure specification function, or
proved to keep a class invariant.

The edge function generates the image with a single model and has no
fallback provider. A second, text model writes the best-effort caption. The
function never deducts a credit. A safety block on the last attempt is answered with
400, and a reply without an image on every attempt is answered with 500.

## Model

| member | source | states |
|---|---|---|
| TryOn.CleanBase64 | supabase/functions/tryon/index.ts:34-37 | Text without a comma is returned unchanged, and the result never contains a comma |
| TryOn.SecondPiece | supabase/functions/tryon/index.ts:35 | With a comma in the text, the cleaned text is the slice that starts right after the first comma and runs to the next comma or to the end |
| TryOn.CleanBase64OfDataUrl | supabase/functions/tryon/index.ts:33-37 | Stripping a `data:<mime>;base64,<data>` URL whose parts hold no comma gives back exactly `<data>` |
| TryOn.FirstImage | supabase/functions/tryon/index.ts:181-193 | No image is found iff no part carries an `image/` MIME type (either spelling) with data; otherwise the result is the data URL of the first such part |
| TryOn.ExtractImage | supabase/functions/tryon/index.ts:181-193 | The scanning loop with `break` returns exactly the first image part's data URL, or none |
| TryOn.CaptionOf | supabase/functions/tryon/index.ts:199-238 | The caption is the default text unless the caption call answered OK with a text whose trimmed form is longer than 10 characters, in which case it is that trimmed text; the length is counted in UTF-16 code units, as JavaScript's `length` does |
| TryOn.BmpCaptionKeptIffLong | supabase/functions/tryon/index.ts:231 | For a text without characters beyond U+FFFF, the caption is kept iff its trimmed form has more than 10 characters |
| TryOn.AstralCaptionKept | supabase/functions/tryon/index.ts:231 | A trimmed text of 6 or more characters beyond U+FFFF (such as emoji) is long enough, because each counts two code units |
| TryOn.Describe | supabase/functions/tryon/index.ts:199-238 | The reassigned `description` ends equal to `CaptionOf` of the caption reply, whether that call failed or threw |
| TryOn.Classify | supabase/functions/tryon/index.ts:115-263 | A wait is only scheduled before the last attempt and lasts `attempt * 2000` ms; giving up or rethrowing happens only on the last attempt; every response decided here is a failure with status 400, 402, 429 or 500; an image only comes from an OK reply, and only a thrown call is rethrown |
| TryOn.ClassifyRules | supabase/functions/tryon/index.ts:115-263 | The order of the status checks for one reply: 429 ends with 429; otherwise 403 or an error text containing QUOTA ends with 402; a 5xx backs off only before the last attempt; other errors give 500. A safety block gives 400 on the last attempt. An image means success. A thrown call is rethrown on the last attempt. Only 5xx, safety block, missing image and thrown calls back off, and the delay is `attempt * 2000` |
| TryOn.Generate | supabase/functions/tryon/index.ts:272 | `callWithRetry(3)` makes 1 to 3 provider calls with one fewer wait than calls, the k-th wait being `k * 2000` ms |
| TryOn.Run | supabase/functions/tryon/index.ts:74-270 | Between 1 and the remaining budget of attempts; one fewer wait than attempts; the k-th wait is `(attempt + k) * 2000` ms |
| TryOn.Attempt | supabase/functions/tryon/index.ts:78-263 | The tests of one turn of the loop, in the code's order, decide exactly the step `Classify` gives: wait, return, rethrow or run out |
| TryOn.LoopTurn | supabase/functions/tryon/index.ts:75-263 | After a wait or an exhausted last attempt the loop goes on with one more attempt (and that wait); after a returned response, an image or a thrown call it ends with that attempt's result |
| TryOn.CallWithRetry | supabase/functions/tryon/index.ts:74-270 | The loop with its waits and early returns yields exactly the result, attempt count and waits of the specification `Run` from attempt 1 |
| TryOn.Respond | supabase/functions/tryon/index.ts:274-280 | A thrown error becomes a 500 carrying its message, or "Erro inesperado" when it has none; a returned response passes through |
| TryOn.Handle | supabase/functions/tryon/index.ts:17-272 | A missing client or garment image gives 400 with no model call and no wait; a missing key gives 500 with no call and no wait; otherwise both images are stripped, and the response and attempts are those of the three-attempt loop |
| TryOn.RunAfterBackoff | supabase/functions/tryon/index.ts:133-138 | An attempt that backs off is followed by a wait of `attempt * 2000` ms and the next attempt |
| TryOn.RunSkipsBackoffs | supabase/functions/tryon/index.ts:75-263 | A stretch of attempts that all back off changes only the attempt count, not the final result |
| TryOn.AttemptBudget | supabase/functions/tryon/index.ts:75-272 | A request makes 1 to 3 model calls, and the waits between them are 2000 ms and then 4000 ms |
| TryOn.RateLimitEndsRequest | supabase/functions/tryon/index.ts:119-124 | A 429 at any attempt ends the request with 429 right there, whatever the later replies |
| TryOn.QuotaEndsRequest | supabase/functions/tryon/index.ts:125-130 | A non-429 403, or an error text containing QUOTA, at any attempt ends the request with 402 right there |
| TryOn.SafetyBlockGivesUpWith400 | supabase/functions/tryon/index.ts:163-175 | A safety block on every attempt is retried twice and then answered with 400 after three calls |
| TryOn.ThrownOnEveryAttempt | supabase/functions/tryon/index.ts:252-263 | A thrown call on every attempt is retried twice, then rethrown and answered with 500 |
| TryOn.NoImageOnEveryAttempt | supabase/functions/tryon/index.ts:246-269 | OK replies without an image on every attempt end with the "no image" 500 after three calls and waits of 2000 and 4000 ms |
| TryOn.ServerErrorOnLastAttempt | supabase/functions/tryon/index.ts:133-143 | A 5xx on every attempt is retried twice and then gives the generic provider-error 500 |
| TryOn.SuccessCarriesFirstImage | supabase/functions/tryon/index.ts:181-243 | A success answers 200 with the first image part and the caption, whatever the caption call did |
| Credits.PlanName | src/hooks/useCredits.ts:29-34 | trial, starter, growth and pro map to their display names; any other plan is shown as the raw plan string |
| Credits.PlanNameIsRawOnlyForUnknownPlans | src/hooks/useCredits.ts:103 | The display name equals the raw plan string iff the plan is not one of the four known ones |
| Credits.DaysRemaining | src/hooks/useCredits.ts:54-59 | 0 for no date or a date not after now; otherwise the ceiling of the difference in days, at least 1 |
| Credits.Evaluate | src/hooks/useCredits.ts:87-96 | TRIAL_EXPIRED iff a trial plan's end is before now; NO_CREDITS iff not expired and the total is at most 0; no reason iff not expired and the total is positive |
| Credits.ViewOf | src/hooks/useCredits.ts:79-110 | Missing credit fields default to 0 and the plan to "trial"; total is plan plus extra credits; blocked iff a reason is set, and the reason follows the block rule; the name, the trial end and renewal dates, and the day counters follow the record |
| Credits.EvaluateBlock | src/hooks/useCredits.ts:87-96 | The step-by-step reassignment of `isBlocked` and `blockReason` ends with the block rule's reason, and blocked iff that reason is set |
| Credits.BuildView | src/hooks/useCredits.ts:79-110 | The handler's view computation yields `ViewOf` of the record, and that view is consistent |
| Credits.CreditsHook.constructor | src/hooks/useCredits.ts:38-52 | Starts loading with no error and the zero-credit trial view |
| Credits.CreditsHook.FetchCreditsData | src/hooks/useCredits.ts:61-117 | Without a store nothing is read; a failed query sets the load error and keeps the view; a row, or a null row read as all-absent, gives `ViewOf` of the row. Loading is off afterwards in every case |
| Credits.CreditsHook.OnRealtimeUpdate | src/hooks/useCredits.ts:138-180 | A pushed row gives `ViewOf` of the row, the same view the fetch path computes from the same fields; loading and error are untouched |
| Credits.TrialExpiryDominates | src/hooks/useCredits.ts:90-92 | An ended trial is blocked with TRIAL_EXPIRED whatever the credit totals |
| Credits.ExpiredTrialWithExtraCredits | src/hooks/useCredits.ts:90-92 | A trial that ended a day ago with 50 extra credits is blocked as expired, with 0 days left |
| Credits.EmptyStarterHasNoCredits | src/hooks/useCredits.ts:93-95 | A starter plan with no credits of either kind is blocked with NO_CREDITS |
| Credits.CanGenerateTryOn | src/hooks/useCredits.ts:189-212 | Allowed iff there is a store and the procedure returned `allowed: true`; a missing `allowed` counts as false. The reason is STORE_NOT_FOUND without a store, ERROR on a failed call, and otherwise the server's reason |
| Credits.ConsumeCredit | src/hooks/useCredits.ts:214-242 | Success iff there is a store and the procedure reported success, and only then is the remaining balance passed through. A failure carries STORE_NOT_FOUND, ERROR or the server's error |
| Auth.HasRole | src/contexts/AuthContext.tsx:163 | A role is held iff it is in the role list |
| Auth.IsAdmin | src/contexts/AuthContext.tsx:164 | Administrator iff the roles contain admin or admin_global |
| Auth.IsAdminGlobal | src/contexts/AuthContext.tsx:165 | Global administrator iff the roles contain admin_global, and a global administrator is an administrator |
| Auth.CollapseWhiteSpace | src/contexts/AuthContext.tsx:146 | The result of replacing whitespace runs contains no whitespace |
| Auth.KeepSlugChars | src/contexts/AuthContext.tsx:146 | The result holds only `[a-z0-9-]`, and a character occurs in it iff it occurs in the input and is a slug character |
| Auth.StoreSlug | src/contexts/AuthContext.tsx:146 | The store slug contains only characters in `[a-z0-9-]` |
| Auth.CollapseRun | src/contexts/AuthContext.tsx:146 | A maximal run of whitespace becomes a single `-` |
| Auth.CollapseAppend | src/contexts/AuthContext.tsx:146 | Collapsing whitespace works piecewise across any split that does not cut a whitespace run |
| Auth.CollapseIdentity | src/contexts/AuthContext.tsx:146 | Text without whitespace is unchanged by the first replacement |
| Auth.KeepIdentity | src/contexts/AuthContext.tsx:146 | Text made of slug characters is unchanged by the second replacement |
| Auth.KeepAppend | src/contexts/AuthContext.tsx:146 | The second replacement works piecewise over a concatenation |
| Auth.StoreSlugIdempotent | src/contexts/AuthContext.tsx:146 | Deriving a slug from a slug changes nothing |
| Auth.SlugOfSpacedWords | src/contexts/AuthContext.tsx:146 | Between two slug words, any run of whitespace becomes exactly one `-` |
| Auth.SlugKeepsDoubleDash | src/contexts/AuthContext.tsx:146 | A non-slug character between two whitespace runs is dropped after the runs become dashes, leaving `--` (for example "loja & cia" gives "loja--cia") |
| Auth.AuthState.constructor | src/contexts/AuthContext.tsx:42-47 | Starts with no user, session, profile or store, no roles, and loading |
| Auth.AuthState.SignOut | src/contexts/AuthContext.tsx:154-161 | After sign-out, user, session, profile and store are null and the roles are empty |
| Auth.AuthState.OnAuthStateChange | src/contexts/AuthContext.tsx:91-111 | The session is adopted and the user follows it. With a user, the data fetch is scheduled for that user's id; without one, profile, store and roles are cleared. Only SIGNED_OUT ends loading |
| Auth.AuthState.FetchUserData | src/contexts/AuthContext.tsx:49-87 | A profile row replaces the profile. A store row replaces the store only when that profile names a store. A roles answer replaces the roles. A store never exists without a profile |
| Auth.AuthState.OnInitialSession | src/contexts/AuthContext.tsx:114-123 | The initial session is adopted, the user's data is fetched when there is a user (the store is set from it when the profile names one, otherwise kept), and loading ends in both cases |
| Routes.Guard | src/components/auth/ProtectedRoute.tsx:23-48 | Spinner while loading; `/auth` without a user; `/` when a requested admin_global, admin or specific role is missing; the page renders iff not loading, a user exists and every requested requirement holds |
| Routes.GlobalAdminPassesAdminChecks | src/components/auth/ProtectedRoute.tsx:36-42 | A global administrator passes both admin flags |
| Routes.AdminIsNotGlobalAdmin | src/components/auth/ProtectedRoute.tsx:36-38 | A plain administrator is sent to `/` from a route that requires a global administrator |
| CreditWidget.MaxCredits | src/components/credits/CreditWidget.tsx:37 | The cap is 50 for trial, 100 for starter, 300 for growth and 800 for any other plan |
| CreditWidget.UsagePercent | src/components/credits/CreditWidget.tsx:38 | Never above 100, and exactly 100 with no plan credits. Within the cap it is the used share times 100. Above the cap it is negative, because there is no lower cap |
| CreditWidget.IsLowCredits | src/components/credits/CreditWidget.tsx:39 | Low means some credits are left and at most 20: 1 to 20 is low, 0 or less and more than 20 are not |
| CreditWidget.BlockedAlert | src/components/credits/CreditWidget.tsx:124-131 | The title is "Trial expirado" iff the reason is TRIAL_EXPIRED, else "Sem créditos", each with its hint |
| CreditWidget.Render | src/components/credits/CreditWidget.tsx:26-147 | Only the skeleton while loading; the badge in compact mode. In the panel: the low-credit warning iff low and not blocked; the blocked alert iff blocked; the buy button iff a handler is given and (low or blocked), labelled "Ver Planos" iff TRIAL_EXPIRED and "Comprar Créditos" otherwise, and primary iff blocked; the alert is the `BlockedAlert` of the reason; the plan and extra credit figures are the view's; days to trial end for trial plans, else days to renewal |
| CreditWidget.LowWarningForStoredView | src/components/credits/CreditWidget.tsx:107 | For a view computed from a store record, the warning shows iff 1 to 20 credits remain and the trial has not ended, and never together with the blocked alert |
| CreditWidget.MessagesForStoredView | src/components/credits/CreditWidget.tsx:120-147 | For a view computed from a store record: an ended trial shows "Trial expirado" and "Ver Planos"; an empty balance shows "Sem créditos" and "Comprar Créditos" |
| BlockedScreen.Render | src/components/credits/BlockedScreen.tsx:14-87 | No reason renders nothing. TRIAL_EXPIRED renders the trial screen with only "Ver Planos". NO_CREDITS renders the no-credits screen with "Comprar Créditos Extras" and "Fazer Upgrade", and shows the renewal sentence iff `daysToRenew > 0` |
| BlockedScreen.TrialScreenOnlyViewsPlans | src/components/credits/BlockedScreen.tsx:30-36 | Every action of the trial screen calls the view-plans handler |
| BlockedScreen.RenewalSentenceForStoredView | src/components/credits/BlockedScreen.tsx:60-64 | For a store out of credits, the renewal sentence appears iff its renewal date is still in the future |
| Sidebar.MaxPlanCredits | src/components/layout/AppSidebar.tsx:39 | The sidebar's cap equals the widget's cap for every plan |
| Sidebar.RemainingPercent | src/components/layout/AppSidebar.tsx:41 | Never above 100, and exactly 100 at or above the cap. Below the cap it is the balance's share times 100, negative for a negative balance |
| Sidebar.Entry | src/components/layout/AppSidebar.tsx:70-101 | An entry is active iff the pathname equals its path. The inline label shows iff not collapsed, and the tooltip iff collapsed, both carrying the item's label |
| Sidebar.Navigation | src/components/layout/AppSidebar.tsx:19-26 | One entry per navigation item, in order |
| Sidebar.AtMostOneActive | src/components/layout/AppSidebar.tsx:71 | Since the six paths are distinct, at most one entry is active, and the entry whose path is the pathname is |
| Processing.Frame | src/components/tryon/ProcessingModal.tsx:41-45 | At iteration i exactly the step with index i is active and exactly the steps before it are completed; icons and labels are kept |
| Processing.Finished | src/components/tryon/ProcessingModal.tsx:50-54 | After the loop every step is completed and none is active; icons and labels are kept |
| Processing.FrameOfSameShape | src/components/tryon/ProcessingModal.tsx:41-45 | A frame depends only on the icons and labels of the list it rewrites, not on the previous flags |
| Processing.OneActiveStepPerFrame | src/components/tryon/ProcessingModal.tsx:40-45 | In each frame of the loop exactly one step is active, and only the steps before it are completed |
| Processing.ProcessingModal.constructor | src/components/tryon/ProcessingModal.tsx:29-30 | Starts with the initial steps, not finished |
| Processing.ProcessingModal.Close | src/components/tryon/ProcessingModal.tsx:33-37 | Closing resets the steps to the initial list and clears `stepsFinished` |
| Processing.ProcessingModal.ProcessSteps | src/components/tryon/ProcessingModal.tsx:39-58 | The loop shows the four frames in order, each followed by a 1200 ms wait. It ends with every step completed, `stepsFinished` set and `onStepsComplete` called once. Icons and labels never change |
| Processing.Title | src/components/tryon/ProcessingModal.tsx:75 | "Quase lá..." iff the steps are finished and the result is awaited, else "Transformando..." |
| Studio.Display | src/pages/Atendimento.tsx:132-150 | A result is displayed in preference to the client photo; the upload prompt shows iff neither exists |
| Studio.TryOnStudio.constructor | src/pages/Atendimento.tsx:32-36 | The first lead is selected; no garment, photo or result; not processing |
| Studio.TryOnStudio.HandlePhotoUpload | src/pages/Atendimento.tsx:38-48 | A chosen file becomes the client photo, as its data URL, and clears the result; without a file nothing changes |
| Studio.TryOnStudio.SelectProduct | src/pages/Atendimento.tsx:177-180 | Selecting a garment sets it and clears the result |
| Studio.TryOnStudio.SelectLead | src/pages/Atendimento.tsx:83 | Selecting a lead changes only the selected lead |
| Studio.TryOnStudio.CanGenerate | src/pages/Atendimento.tsx:62 | Generation is possible only with a client photo and a garment selected; a missing or empty photo, or no garment, rules it out |
| Studio.TryOnStudio.HandleGenerate | src/pages/Atendimento.tsx:50-54 | Processing starts exactly when a client photo and a garment are selected (`canGenerate`); processing only ever runs on such a selection |
| Studio.TryOnStudio.HandleProcessingComplete | src/pages/Atendimento.tsx:56-60 | Completion clears processing and sets the result to the current client photo |
| Studio.TryOnStudio.PhotoAreaNow | src/pages/Atendimento.tsx:132-150 | A shown result is always the current client photo |
| Studio.GenerateFlow | src/pages/Atendimento.tsx:38-60 | Upload, choose, generate and complete ends with the uploaded photo's data URL on display |
| Catalogue.FilterProducts | src/pages/Produtos.tsx:44-46 | A product is listed iff it is in the catalogue and its lower-cased name contains the lower-cased term |
| Catalogue.FilterAppend | src/pages/Produtos.tsx:44-46 | The filter keeps catalogue order: filtering a concatenation concatenates the filters |
| Catalogue.FilterEmptyTerm | src/pages/Produtos.tsx:44-46 | An empty search term lists every product |
| Catalogue.ProductsPage.FilteredProducts | src/pages/Produtos.tsx:44-46 | The page lists exactly the products matching its current search term |
| Catalogue.ProductsPage.constructor | src/pages/Produtos.tsx:39-42 | Starts with the initial products, an empty search, the dialog closed and an empty draft |
| Catalogue.ProductsPage.HandleAddProduct | src/pages/Produtos.tsx:48-63 | With an empty name or category the products, draft and dialog are unchanged. Otherwise exactly one active product with the placeholder image is appended, the draft is emptied and the dialog closes |
| Catalogue.AddedProductShownIffMatches | src/pages/Produtos.tsx:44-59 | After an add, the filtered list gains the new product at its end iff it matches the search |
| JsText.TrimIsCore | supabase/functions/tryon/index.ts:231-232 | `trim()` returns a contiguous slice whose surroundings are all whitespace, and it neither starts nor ends with whitespace |
| JsText.TrimIdempotent | supabase/functions/tryon/index.ts:231-232 | Trimming twice is trimming once |
| JsText.Split | supabase/functions/tryon/index.ts:35 | `split(',')` gives at least one piece, none containing a comma; at least two iff the text contains a comma |
| JsText.FirstPiece | supabase/functions/tryon/index.ts:35 | The first piece of a split is the text up to the first separator, or all of it |
| JsText.JoinSplit | supabase/functions/tryon/index.ts:35 | Joining the pieces of a split with the separator gives back the text |
| JsText.Utf16Length | supabase/functions/tryon/index.ts:231 | `length` counts UTF-16 code units: between the number of characters and twice it |
| JsText.Utf16LengthOfBmp | supabase/functions/tryon/index.ts:231 | A text without characters beyond U+FFFF has as many code units as characters |
| JsText.Utf16LengthOfAstral | supabase/functions/tryon/index.ts:231 | A text made only of characters beyond U+FFFF has twice as many code units as characters |
| JsText.IncludesAt | src/pages/Produtos.tsx:45 | `includes` holds iff the needle occurs at some offset of the text |

## Left out

- HTTP plumbing of the edge function is not modelled: `serve`, CORS pre-flight, `req.json()` and the request and response headers. A body that is not JSON is not modelled either.
- The environment lookup is the `apiKey` parameter, and each `fetch` to the model is an abstract reply. The prompts and the request bodies sent to the model are not modelled.
- TryOn.Handle: the request's image fields are optional strings, so a JSON field of another type is not modelled. For example, a truthy number passes the presence check, then `includes` throws, and the outer handler answers 500 with the error's message.
- Waiting with `setTimeout` is recorded as the delay it would wait.
- TryOn.Handle, TryOn.CallWithRetry, TryOn.Run, TryOn.Generate: require at least as many replies as attempts. The sequence of replies stands for what the model answers, so this assumes the model answers every call.
- Server-side procedures (`can_generate_tryon`, `consume_credit`) are not modelled beyond the client-side mapping of their answers. Their atomicity, idempotency and the "extra credits first" rule are not visible in this code.
- Supabase queries and the realtime channel's subscribe and unsubscribe are inputs or left out. React effects, rendering, async timing and the race between the modal timer and the result are left out.
- `new Date()` is the `now` parameter in milliseconds. Parsing of the timestamp strings, including invalid dates, is not modelled: a date is present or absent.
- Credits.PlanName: the lookup `planNames[plan] || plan` also finds keys inherited from JavaScript's object prototype (a plan named `constructor`, say). The model treats only the four plans as keys.
- CreditWidget.UsagePercent, Sidebar.RemainingPercent: computed on real numbers rather than floating point. `Math.round` on the displayed percentage is not modelled.
- JsText.ToLower: lower-cases ASCII letters only, not the full Unicode case mapping of `toLowerCase` (a slug or search over "İ" or "É" is not modelled).
- Auth.AuthState.FetchUserData: a thrown exception mid-way, which leaves the earlier updates in place, is not modelled. A failed read is modelled as a `null` row. `signIn` and `signUp` are Supabase calls; only the slug that sign-up computes is modelled.
- The processing modal is opened by the studio with an `onComplete` prop, but the modal expects `isWaitingResult` and `onStepsComplete`. The two are not wired together here: the modal's completion and the studio's `HandleProcessingComplete` are separate events.
- Form pages (sign-in, profile, password reset) are not part of this model. Nor are static pages (dashboard, analytics, billing plans) or the routing table and layout.
