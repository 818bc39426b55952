# TravelWorld route logic in Dafny

TravelWorld is a Next.js application that helps people plan emigration. Users
sign up and verify their e-mail, fill in a profile (education, work
experience, languages), ask for a feasibility analysis that recommends
destination countries, open immigration cases with a list of steps, upload
documents, and chat with an assistant that is given a text summary of their
data. This project models the decision logic inside those route handlers.
The database is an in-memory table. Clocks, random tokens, hashing and the
completion service are parameters.

One module per route file:

- `Common` (common.dfy) holds shared helpers:
  - nullable strings and JavaScript truthiness (`x || y`, `${x}` of null);
  - decimal rendering of numbers and reading it back;
  - `String.prototype.includes` and JavaScript's string order;
  - a stable ascending sort that stands for a query's `orderBy`.
- `Profiles` (profiles.dfy) is the stored user with their profile.
- `Analysis` (analysis.dfy) covers the feasibility analysis:
  - the profile projection;
  - the five-rule fallback recommender;
  - the choice between the AI answer and the fallback;
  - POST, which creates an IN_PROGRESS analysis, stores the recommendations and marks it COMPLETED;
  - GET, which lists analyses newest first, with recommendations by descending score.
- `Cases` (cases.dfy) covers immigration cases:
  - the built-in step catalog (France/STUDENT, Canada/STUDENT, generic);
  - the choice between an active administrator template and that catalog;
  - POST, which creates the case and its steps;
  - GET, which lists cases newest first, with steps by step number.
- `ChatContext` (chat.dfy) covers the chat route:
  - the context text built section by section;
  - the route's answer when the user, the API key or the reply is missing.
- `Auth` (auth.dfy) covers accounts and their single verification-token slot:
  - the sign-up/login route with its e-mail pattern, password length and full-name rules;
  - e-mail verification;
  - forgot-password.
- `Upload` (upload.dfy) covers documents:
  - the size limit;
  - the sanitised stored file name and its URL;
  - the owner's document list;
  - the delete that only the owner may perform.
- `SignupForm` (signup.dfy) covers the sign-up page's submit checks and its password-strength meter.

Where a route changes stored rows, the table is a class. `AnalysisStore`,
`CaseStore`, `UserTable` and `DocumentTable` each have `seq` fields, a
`Valid()` invariant and methods whose `ensures` give the whole new state.
Each method is tied to specification functions. Lemmas then state the
route's promises about those functions: token lifecycle, read-back of written
rows, orderings.

## Model

| member | source | states |
|---|---|---|
| Analysis.ProjectProfile | src/app/api/analysis/route.ts:133-157 | one education, work and language entry per stored entry, in order and with the listed fields; years are null exactly for an ongoing job; age is current year minus birth year, or null without a birth date |
| Analysis.Select | src/app/api/analysis/route.ts:216-307 | a recommendation is in the fallback list iff its rule's gate passes; at most one per rule |
| Analysis.SelectedUnfold | src/app/api/analysis/route.ts:216-307 | the fallback list is Canada if the degree qualifies, then France if French ≥ "B1", then États-Unis and Belgique, then Allemagne if any language is listed |
| Analysis.SelectFive | src/app/api/analysis/route.ts:216-307 | selecting from five rules concatenates their contributions in order |
| Analysis.GenerateBasicRecommendations | src/app/api/analysis/route.ts:209-313 | the conditional pushes plus `slice(0, 5)` give exactly the rule-selected list; the summary embeds the education count, the language count and the list length |
| Analysis.FallbackSize | src/app/api/analysis/route.ts:256-311 | the fallback always has between 2 and 5 recommendations, so `slice(0, 5)` never drops one |
| Analysis.FallbackAlwaysHasUsaAndBelgium | src/app/api/analysis/route.ts:256-288 | États-Unis (75) and Belgique (78) are always present |
| Analysis.FallbackCanadaIffDegree | src/app/api/analysis/route.ts:213-233 | Canada is present iff the FIRST education entry's degree contains "Licence" or "Master" |
| Analysis.DoctoratDoesNotQualify | src/app/api/analysis/route.ts:213-217 | a first degree "Doctorat" does not bring Canada |
| Analysis.FallbackFranceIffFrench | src/app/api/analysis/route.ts:236-254 | France is present iff some FRENCH entry has level ≥ "B1" in string order |
| Analysis.FrenchLevelTest | src/app/api/analysis/route.ts:237 | `level >= "B1"` holds iff the level starts with a letter after 'B', or with "B" followed by a character at or after '1' |
| Analysis.OfferedFrenchLevels | src/components/profile/LanguagesTab.tsx:29-37 | of the form's levels, B1, B2, C1, C2 and NATIVE pass the French test and A1 and A2 fail it |
| Analysis.FallbackGermanyIffLanguages | src/app/api/analysis/route.ts:291-307 | Allemagne is present iff the language list is non-empty |
| Analysis.FallbackScoresInRange | src/app/api/analysis/route.ts:216-307 | every fallback score is within [0, 100] |
| Analysis.SelectKeepsRuleOrder | src/app/api/analysis/route.ts:216-307 | selecting from rules in rank order keeps rank order |
| Analysis.FallbackKeepsRuleOrder | src/app/api/analysis/route.ts:216-311 | the output follows the order Canada, France, États-Unis, Belgique, Allemagne, not the scores |
| Analysis.LicenceAndFrenchB2Scenario | src/app/api/analysis/route.ts:209-313 | a Licence with French B2 yields all five destinations in rule order |
| Analysis.SummaryDeterminesCounts | src/app/api/analysis/route.ts:310 | two summaries are equal only if the three embedded counts are equal |
| Analysis.GenerateAIAnalysis | src/app/api/analysis/route.ts:159-205 | with no key or on any failure the result is exactly the fallback; otherwise the AI recommendations pass through and the summary defaults to "Analyse complétée avec succès" |
| Analysis.RecommendationsFor | src/app/api/analysis/route.ts:110-118 | an analysis's recommendations are exactly the stored rows carrying its id |
| Analysis.RecommendationsForCounts | src/app/api/analysis/route.ts:110-118 | each recommendation occurs as often as its row is stored under the analysis, so duplicates are kept |
| Analysis.ByScoreDescending | src/app/api/analysis/route.ts:113-115 | a permutation of the rows in non-increasing score order |
| Analysis.ViewsOf | src/app/api/analysis/route.ts:110-118 | exactly the user's analyses, each with a score-descending permutation of its own recommendations |
| Analysis.ViewsNewestFirst | src/app/api/analysis/route.ts:110-118 | with ids issued in creation order, the views run by strictly descending id, newest first, so each analysis appears once |
| Analysis.AnalysisStore.Post | src/app/api/analysis/route.ts:6-98 | unknown user gives 404 and a profile without education gives 400, both with no write; otherwise the analysis of the projected profile is created as `Analyse` states |
| Analysis.AnalysisStore.Analyse | src/app/api/analysis/route.ts:46-85 | one analysis is created with the next id; with recommendations it ends COMPLETED with summary and time, and its rows read back as the list; without them it stays IN_PROGRESS and the route answers 500 |
| Analysis.AnalysisStore.Complete | src/app/api/analysis/route.ts:57-85 | the rows are stored under the analysis and read back as the list; the analysis becomes COMPLETED with the summary and time; the store invariant is kept |
| Analysis.AnalysisStore.InsertRecommendations | src/app/api/analysis/route.ts:57-72 | appends one row per recommendation, in order, under the analysis id |
| Analysis.StoredRowsReadBack | src/app/api/analysis/route.ts:57-85 | after the insert, the new analysis's recommendations read back as exactly the rows written |
| Analysis.AnalysisStore.Get | src/app/api/analysis/route.ts:101-128 | exactly the caller's analyses, newest first and each once, each with its recommendations by descending score |
| Common.Contains | src/app/api/analysis/route.ts:217 | `s.includes(t)` holds iff `t` occurs at some position of `s` |
| Common.OrNull | src/app/api/upload/route.ts:58 | the description-or-null expression keeps the description iff it is truthy (present and non-empty) and gives null otherwise |
| Common.SortByKey | src/app/api/cases/route.ts:17-20 | an `orderBy` ascending on a numeric key returns a permutation of the rows in non-decreasing key order |
| Common.DecimalStringInjective | src/app/api/upload/route.ts:42 | two different numbers never render as the same decimal text |
| Cases.DefaultStepsForCountry | src/app/api/cases/route.ts:136-288 | France/STUDENT gives 7 steps, Canada/STUDENT 8, anything else the generic 5; every step has a proof type iff it requires proof; the last step requires none |
| Cases.CatalogProofPlacement | src/app/api/cases/route.ts:136-288 | France and Canada require proof at every step except the last; the generic list requires it at steps 2 to 4 only |
| Cases.FindTemplate | src/app/api/cases/route.ts:56-67 | the first template that is active and matches both strings, or none if no template does |
| Cases.ResolvedStepsSource | src/app/api/cases/route.ts:56-89 | an active template with steps gives one row per template step; otherwise 7, 8 or 5 catalog rows by the exact pair |
| Cases.ResolvedStepsStartNotStarted | src/app/api/cases/route.ts:70-133 | every created step belongs to the new case and is NOT_STARTED |
| Cases.DefaultRowsNumbered | src/app/api/cases/route.ts:115-133 | catalog rows are numbered exactly 1..n, strictly increasing, with no duplicates |
| Cases.DefaultRowsProofConsistent | src/app/api/cases/route.ts:115-133 | each catalog row has a proof type iff it requires proof |
| Cases.TemplateCopiedVerbatim | src/app/api/cases/route.ts:70-85 | one row per template step with its number, title, description and proof fields, and no other rows; each row occurs exactly as often as its template step |
| Cases.CopyCounts | src/app/api/cases/route.ts:70-85 | copying steps one row each keeps every step's multiplicity |
| Cases.CaseStore.CreateDefaultSteps | src/app/api/cases/route.ts:115-133 | appends the catalog rows numbered index + 1 |
| Cases.CaseStore.AppendDefaultRows | src/app/api/cases/route.ts:118-132 | the loop appends one row per catalog entry, numbered index + 1, NOT_STARTED |
| Cases.CaseStore.AddSteps | src/app/api/cases/route.ts:56-89 | appends the template's rows when an active template with steps matches, the catalog rows otherwise |
| Cases.CaseStore.CopyTemplateSteps | src/app/api/cases/route.ts:70-85 | appends the template's rows in step-number order |
| Cases.CaseStore.Create | src/app/api/cases/route.ts:34-112 | appends a PENDING case and its resolved steps; returns those steps in step-number order |
| Cases.NewCaseStepsReadBack | src/app/api/cases/route.ts:91-100 | reading the new case's steps back yields exactly the rows written for it |
| Cases.StepsFor | src/app/api/cases/route.ts:17-20 | a case's steps are exactly the stored rows carrying its id |
| Cases.StepsForCounts | src/app/api/cases/route.ts:17-20 | each of the case's rows occurs as often as it is stored; rows of other cases never |
| Cases.ByStepNumber | src/app/api/cases/route.ts:17-20 | a permutation of the steps in ascending step number |
| Cases.CaseViewsOf | src/app/api/cases/route.ts:15-24 | exactly the user's cases, each with its own steps in ascending step number |
| Cases.CaseViewsNewestFirst | src/app/api/cases/route.ts:15-24 | with ids issued in creation order, the views run by strictly descending id, newest first, so each case appears once |
| Cases.CaseStore.Get | src/app/api/cases/route.ts:6-31 | exactly the caller's cases, newest first and each once, steps by ascending step number |
| ChatContext.Section | src/app/api/ai/route.ts:128-175 | a section is empty iff its list is; otherwise it starts with its title and ends with a line break |
| ChatContext.AppendLines | src/app/api/ai/route.ts:130-132 | the `forEach` loop appends each entry's line in list order |
| ChatContext.BuildUserContext | src/app/api/ai/route.ts:121-190 | the text built with `+=` equals the specification: header, then education, work, language, case and analysis sections, in that order |
| ChatContext.HeaderFirst | src/app/api/ai/route.ts:122-125 | the header lines always come first |
| ChatContext.NameLineDefaults | src/app/api/ai/route.ts:122 | each name field independently: a missing first name reads "Non renseigné", a missing last name is blank, a present one reads its value |
| ChatContext.NationalityLineDefault | src/app/api/ai/route.ts:124 | a missing nationality reads "Non renseignée", a present one its value |
| ChatContext.CountryLineDefault | src/app/api/ai/route.ts:125 | a missing current country reads "Non renseigné", a present one its value |
| ChatContext.HeaderDefaults | src/app/api/ai/route.ts:122-125 | with all four fields missing, the header is exactly the all-defaults text |
| ChatContext.HeaderOnlyWhenNothingElse | src/app/api/ai/route.ts:121-190 | with no profile entries, no cases and no analysis, the context is only the header |
| ChatContext.EducationOneLineEach | src/app/api/ai/route.ts:130-132 | one line per education entry, when its fields hold no line break |
| ChatContext.WorkOneLineEach | src/app/api/ai/route.ts:139-141 | one line per work entry, when its fields hold no line break |
| ChatContext.LanguageOneLineEach | src/app/api/ai/route.ts:148-152 | one line per language entry, when its fields hold no line break |
| ChatContext.CertificateNoteIffCertified | src/app/api/ai/route.ts:149-151 | a language line carries "(Certifié: …)" iff the skill is certified; a missing name renders as "null" |
| ChatContext.CountCompleted | src/app/api/ai/route.ts:160-163 | completed count k ≤ n; k = n iff every step is COMPLETED; k = 0 iff none is |
| ChatContext.ProgressReadBack | src/app/api/ai/route.ts:164 | "k/n étapes complétées" determines both k and n |
| ChatContext.CurrentStep | src/app/api/ai/route.ts:167-172 | the first IN_PROGRESS or NOT_STARTED step, or none if no step is either |
| ChatContext.CurrentStepIsLowestOpen | src/app/api/ai/route.ts:28-30 | with steps by ascending number, the current step has the lowest number among open steps |
| ChatContext.FinishedCaseHasNoCurrentStep | src/app/api/ai/route.ts:160-172 | a case with every step completed has no current step and reads n/n |
| ChatContext.AnalysisEntries | src/app/api/ai/route.ts:182-185 | at most three entries: the first three recommendations in store order, each "country (score%)" |
| ChatContext.AnalysisSection | src/app/api/ai/route.ts:178-187 | present iff the user has an analysis, even one with no recommendations |
| ChatContext.Chat | src/app/api/ai/route.ts:44-119 | unknown user gives 404; no key gives the fixed "not available" message; a failed call gives 500 with the apology; a successful call gives 200 with its content, null included |
| ChatContext.ChatFailsOnlyOnFailedCall | src/app/api/ai/route.ts:101-117 | the answer is 500 exactly when the call fails; the response is null exactly when a successful call carries no text |
| ChatContext.NoKeyIgnoresReply | src/app/api/ai/route.ts:57-62 | without a key, the assistant's reply cannot affect the answer |
| Auth.IsValidEmail | src/app/api/auth/route.ts:21-27 | holds iff some split of the address fits `^[^\s@]+@[^\s@]+\.[^\s@]+$` |
| Auth.EmailShapeIsPattern | src/app/api/auth/route.ts:21 | the pattern holds iff: no white space, exactly one "@" with text before it, and a "." in the domain with text on both sides |
| Auth.EmailExamplesAccepted | src/app/api/auth/route.ts:21-27 | "ana@mail.fr" and "a.b@c.d.e" are accepted |
| Auth.EmailExamplesMisshapen | src/app/api/auth/route.ts:21-27 | rejected: no dot after the "@", an empty local part, an empty domain label, a trailing dot |
| Auth.EmailExamplesBadCharacter | src/app/api/auth/route.ts:21-27 | rejected: a second "@", a space |
| Auth.FullName | src/app/api/auth/route.ts:59 | "first last" when both are truthy, else whichever is truthy, else null; never the empty string |
| Auth.FullNameSplitsBack | src/app/api/auth/route.ts:59 | a composed name splits back into both parts at its first space |
| Auth.IndexOfEmail | src/app/api/auth/route.ts:40-42 | the account with that e-mail, or none |
| Auth.IndexOfToken | src/app/api/auth/verify/route.ts:19-26 | the first account whose token equals the given one and whose expiry is at or after now (inclusive) |
| Auth.Verified | src/app/api/auth/verify/route.ts:36-43 | verified, token and expiry null, nothing else changed |
| Auth.WithResetToken | src/app/api/auth/forgot-password/route.ts:33-39 | token and expiry overwritten, nothing else changed (emailVerified kept) |
| Auth.LoginDecision | src/app/api/auth/route.ts:102-148 | claims are issued iff the account exists, the password matches and the e-mail is verified; the shared 401 iff the account is unknown or the password is wrong; the 403 with the e-mail iff the password matches an unverified account |
| Auth.UserTable.FindByEmail | src/app/api/auth/route.ts:104-106 | the lookup loop finds the e-mail's account |
| Auth.UserTable.FindByToken | src/app/api/auth/verify/route.ts:19-26 | the lookup loop finds the first account the token unlocks |
| Auth.UserTable.Authenticate | src/app/api/auth/route.ts:8-161 | missing fields (400) are checked before the e-mail format (400); sign-up refuses short passwords (400) and taken e-mails (409) without writing; otherwise it appends an unverified account with the token expiring after 24 h; login follows the check chain without writing; any other type gives 400 |
| Auth.UserTable.Verify | src/app/api/auth/verify/route.ts:6-67 | a missing or non-matching token changes nothing; otherwise the account found is verified and its token slot cleared, and the claims name that account |
| Auth.UserTable.ForgotPassword | src/app/api/auth/forgot-password/route.ts:5-132 | a missing e-mail gives 400; the answer is the same for known and unknown e-mails; an unknown e-mail changes nothing; a known one gets the reset token with a 1 h expiry |
| Auth.VerifyIsSingleUse | src/app/api/auth/verify/route.ts:19-43 | after verification, its token unlocks nothing, at any later time |
| Auth.ResetInvalidatesPendingToken | src/app/api/auth/forgot-password/route.ts:33-39 | a reset makes a pending sign-up token stop unlocking that account |
| Auth.ResetTokenVerifiesUntilExpiry | src/app/api/auth/forgot-password/route.ts:29-39 | the reset token passes the verification lookup for that account until the hour is over, and not after |
| Auth.SignupTokenVerifiesForADay | src/app/api/auth/route.ts:55-79 | a new account's token passes the verification lookup for 24 h inclusive, and not after |
| Auth.VerifiedAccountCanLogIn | src/app/api/auth/verify/route.ts:36-58 | after verification, a matching password logs in with claims naming the account |
| Upload.SanitizeFileName | src/app/api/upload/route.ts:43 | same length; allowed characters kept; every other character becomes "_"; the result uses only `[A-Za-z0-9.-]` and "_" |
| Upload.SanitizeIdempotent | src/app/api/upload/route.ts:43 | sanitising twice equals sanitising once |
| Upload.SanitizeKeepsSafeNames | src/app/api/upload/route.ts:43 | a name of allowed characters is unchanged |
| Upload.StoredFileNameStaysInDirectory | src/app/api/upload/route.ts:42-45 | the stored name has no "/" or "\\", and the URL is "/uploads/" followed by it |
| Upload.StoredFileNameReadBack | src/app/api/upload/route.ts:42-44 | the stored name determines the timestamp and the sanitised name |
| Upload.IndexOfDocument | src/app/api/upload/route.ts:122-124 | the document with that id, or none |
| Upload.OwnedNewestFirst | src/app/api/upload/route.ts:89-92 | exactly the caller's documents |
| Upload.OwnedNewestFirstDescending | src/app/api/upload/route.ts:89-92 | with ids issued in creation order, the list runs newest first |
| Upload.DocumentTable.Upload | src/app/api/upload/route.ts:7-77 | no file, or a size over 10 MiB, gives 400 and no write; exactly 10 MiB is accepted; the row has the stored name, its URL and the original name |
| Upload.DocumentTable.FindDocument | src/app/api/upload/route.ts:122-124 | the lookup loop finds the document with that id |
| Upload.DocumentTable.Delete | src/app/api/upload/route.ts:105-150 | no id gives 400; a missing document or another user's gives 404 with the table unchanged; otherwise only that row is removed |
| Upload.DeleteRemovesOnlyTarget | src/app/api/upload/route.ts:133-136 | the delete removes exactly that document and keeps every other row |
| Upload.DocumentTable.Get | src/app/api/upload/route.ts:80-102 | exactly the caller's documents, newest first |
| SignupForm.Submit | src/app/auth/signup/page.tsx:19-46 | a mismatch is reported first, then a length under 6; only otherwise is the sign-up request sent, with the form's fields |
| SignupForm.SentPasswordsMeetRouteMinimum | src/app/auth/signup/page.tsx:28-31 | a request the page sends always passes the route's password minimum |
| SignupForm.StrengthMeter | src/app/auth/signup/page.tsx:171-183 | shown iff the password is non-empty; bar 1 iff length ≥ 6; bar 2 iff length ≥ 8; bar 3 iff it has an A–Z letter and a digit |
| SignupForm.SecondBarNeedsFirst | src/app/auth/signup/page.tsx:174-175 | bar 2 implies bar 1 |
| SignupForm.ExactlyOneMessage | src/app/auth/signup/page.tsx:179-181 | exactly one message: below 6 "Minimum 6 caractères", 6–7 "Mot de passe acceptable", 8 or more "Mot de passe fort" |
| SignupForm.ThirdBarIgnoresLength | src/app/auth/signup/page.tsx:176 | bar 3 can light on a three-character password while bar 1 stays dark |

## Left out

- Bearer-token check and decoding. The analysis, cases, upload and chat routes first answer 401 when the `authorization` header is missing, then decode the token. The model of those routes starts from the decoded user id. Sign-up/login, e-mail verification and password reset take no token.
- Calls to the completion service. The HTTP requests, prompts and conversation history are not modelled. The parsed outcome is a parameter: `Analysis.AiReply`, or a `ChatContext.ChatReply` in `ChatContext.Chat`.
- Unchecked AI recommendations. Rows from the completion service are passed through without validation. A reply whose rows lack fields would fail at insert time; that path is not modelled.
- Analysis.ProjectProfile: work years are a floating-point division in the source. They are kept as a `real` quotient and nothing is proved about their value. Age uses only the birth year and a current-year parameter.
- Foreign functions. Password hashing and comparison, `crypto.randomBytes` and `signToken` are not modelled. Their results are parameters, and a successful login or verification returns the claims the token would be signed over.
- E-mail sending. Verification, welcome and reset e-mails never change a route's answer: the senders report failure as a value, or the route catches it. The model has no sending step.
- Auth.UserTable.Authenticate: the request fields are taken to be strings. A JSON body with non-string values, for example a numeric password, is not modelled.
- Database behaviour:
  - Tables are sequences.
  - Ids come from a counter instead of generated strings. A missing or empty id parameter is `None`.
  - `createdAt` order is insertion order.
  - `Promise.all` batch inserts happen one row at a time, in list order.
  - Store failures that would give a 500 are not modelled, except a completion answer without recommendations.
  - Enum validation of the document type and of the proof type by the database is not modelled.
- Cases.CaseStore.Get: the `documents` include of each case is not returned.
- Upload.DocumentTable.Upload: writing the file to disk and creating the uploads directory are not modelled.
- Strings and characters. A JavaScript string is a sequence of UTF-16 code units; here each Dafny character stands for one code unit. A character outside the Basic Multilingual Plane counts as two code units in JavaScript and is not represented.
- Other files. Profile editing routes, the `cases/create` and `cases/[id]/steps` routes, and all pages except the sign-up page's checks are not part of this model.
