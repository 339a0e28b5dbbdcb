# Restaurant menu backend and API client, modelled in Dafny

This project models the rule-bearing core of a restaurant-menu application.
The application has a Go backend (Gin handlers, GORM repositories, S3 and
Redis clients) and a JavaScript front end. The model covers these parts:

- **Slugs and pagination** (`common.dfy`, `utils.dfy`, `text.dfy`). There are
  two slug generators. The entity one maps spaces to hyphens, deletes
  everything outside `[a-z0-9-]`, trims hyphens and cuts at 100 characters.
  The utility one collapses every run of other characters into one hyphen.
  `NewPagination` clamps page and limit and derives the page count and the
  next/previous flags. The parse-with-default helpers, min/max and
  truncation are modelled as well.
- **Entity hooks** (`entities.dfy`). `Category` and `SubCategory` are classes
  whose `BeforeCreate`/`BeforeUpdate` hooks fill in the slug in place.
- **Error taxonomy** (`errors.dfy`). `AppError` with its type-to-status map,
  its constructors and its text. Unwrap chains are an `Error` datatype, and
  `GetStatusCode`/`GetErrorType` search that chain.
- **Configuration** (`config.dfy`). Loading from an environment map, the
  validation order, the environment flags and the DSN string.
- **Rate limiting** (`rate_limiter.dfy`). The Redis limiter's defaults, its
  counter arithmetic and its decision. The advanced limiter's rule precedence,
  as a loop proved against a specification function. The in-memory sliding
  window limiter, as a class whose timestamp map is cleaned and appended in
  place.
- **Domain services over a store** (`store.dfy`, `category_service.dfy`,
  `subcategory_service.dfy`, `item_service.dfy`). The repositories become a
  `Database` class holding one map per table plus the next auto-increment
  ids. Each service operation is a method that changes that store and is
  proved equal to a pure outcome function. A repository call that fails is
  described by a `Fault` naming the failing call and its error.
- **Menu aggregation** (`menu_service.dfy`). The nested category →
  subcategory → item loops and their totals, and the search and featured
  defaults.
- **Upload validation and S3 keys** (`s3.dfy`). The extension and MIME
  whitelists, the order of the upload checks, the object key and URL shapes,
  the presign expiry default and the classification of HEAD errors.
- **Front-end API client** (`api_client.dfy`). The TTL cache with lazy
  eviction, the cache key, the retry loop with exponential backoff and the
  URL building of `get`. The client is a class whose cache map the methods
  update.

Clocks, UUIDs, content sniffing, duration and float parsing, `fetch`, the
AWS SDK and the Redis counter all become parameters. A case mapping
(`Text.CaseMap`) stands for `strings.ToLower`/`strings.ToUpper`. Lemmas that
need it to behave assume only that it keeps `[a-z0-9- ]` fixed, which ASCII
lower-casing does (`Text.AsciiLowerKeepsSlugAlphabet`).

Where the code does something other than its names, messages or documentation suggest, the model follows the code.
Three places where this matters:
- The rate limiter's rejection goes through a plain error, so it answers 500, not 429.
- The advanced limiter's built-in keys are written for `/v1/...`, while the routes live under `/api/v1`, so every API request gets the default rule.
- The upload error text names JPEG, PNG and WebP, but GIF is accepted as well.

## Model

| member | source | states |
|---|---|---|
| Text.AsciiLowerKeepsSlugAlphabet | backend/internal/domain/entities/common.go:11 | ASCII lower-casing leaves lower-case letters, digits, the hyphen and the space unchanged |
| Text.MapRunes | backend/internal/domain/entities/common.go:11 | mapping a string character by character through a case mapping (lower or upper) keeps its length |
| Text.ToLowerKeepsSlugText | backend/pkg/utils/utils.go:12 | text made only of slug characters and spaces is unchanged by lower-casing |
| Text.Trim | backend/internal/domain/entities/common.go:14 | `strings.Trim(s, c)` is the slice of `s` between the leading and trailing runs of `c`; the result neither starts nor ends with `c` |
| Text.TrimNoop | backend/pkg/utils/utils.go:19 | trimming a string that neither starts nor ends with `c` returns it unchanged |
| Text.Contains | backend/internal/infrastructure/aws/s3.go:186 | `strings.Contains` holds exactly when some position starts an occurrence of the substring |
| Common.DropNonSlugChars | backend/internal/domain/entities/common.go:13 | deleting characters outside `[a-z0-9-]` leaves only slug characters and never lengthens the text |
| Common.DropNonSlugCharsKeeps | backend/internal/domain/entities/common.go:13 | text already made of slug characters passes the regular-expression replacement unchanged |
| Common.GenerateSlugShape | backend/internal/domain/entities/common.go:10-21 | the slug uses only `[a-z0-9-]`, is at most 100 long and never starts with `-`; it ends with `-` only when the 100-character cut fell after a hyphen of a longer slug |
| Common.GenerateSlugMapsEachSpace | backend/internal/domain/entities/common.go:12 | for a short name of lower-case alphanumerics and inner spaces, the slug has the same length and has a hyphen exactly where the name has a space, so runs of spaces are not collapsed |
| Common.GoQuotient | backend/internal/domain/entities/common.go:43 | Go's integer division truncates toward zero |
| Common.NewPagination | backend/internal/domain/entities/common.go:32-53 | page ≥ 1 and kept when already ≥ 1; the limit is in 1..100, 10 replacing a limit below 1 and 100 one above 100; total is passed through; for total ≥ 0 the page count is the ceiling of total/limit; has-next iff page < page count; has-prev iff page > 1 |
| Common.CeilingDivision | backend/internal/domain/entities/common.go:43 | `(total + limit - 1) / limit` is the least page count whose pages hold `total` rows |
| Common.OffsetOfNewPagination | backend/internal/domain/entities/common.go:55-57 | the offset of a paginator built by NewPagination is never negative, and it is 0 exactly on page 1 |
| Utils.SkipRun | backend/pkg/utils/utils.go:15 | skipping a leading run of non-alphanumerics leaves a suffix that is empty or starts with `[a-z0-9]` |
| Utils.CollapseRuns | backend/pkg/utils/utils.go:15 | replacing every run of characters outside `[a-z0-9]` by one hyphen leaves only slug characters, never two hyphens in a row, and keeps an alphanumeric first character |
| Utils.GenerateSlugIsSlug | backend/pkg/utils/utils.go:10-22 | every result of GenerateSlug uses only `[a-z0-9-]`, has no hyphen at either end and no double hyphen |
| Utils.CollapseRunsKeeps | backend/pkg/utils/utils.go:15 | a string of slug characters with no double hyphen survives run collapsing unchanged |
| Utils.GenerateSlugIdempotent | backend/pkg/utils/utils.go:10-22 | GenerateSlug(GenerateSlug(s)) == GenerateSlug(s) |
| Utils.AtoiItoa | backend/pkg/utils/utils.go:98 | `strconv.Atoi` reads back every 64-bit integer from its decimal text |
| Utils.ParseBoolText | backend/pkg/utils/utils.go:48 | `strconv.ParseBool` accepts exactly 1, t, T, TRUE, true, True as true and 0, f, F, FALSE, false, False as false |
| Utils.ParseBool | backend/pkg/utils/utils.go:43-54 | the default when the text is empty or not a boolean, otherwise the parsed value |
| Utils.ParseBoolPtr | backend/pkg/utils/utils.go:57-68 | nil exactly when the text is empty or not a boolean, otherwise the parsed value |
| Utils.StringPtr | backend/pkg/utils/utils.go:30-35 | nil exactly for the empty string, otherwise a pointer to the string |
| Utils.ParseStringPtr | backend/pkg/utils/utils.go:71-76 | nil exactly for the empty string, otherwise a pointer to the string |
| Utils.ParseIntPtr | backend/pkg/utils/utils.go:79-90 | nil exactly when the text is empty or not a 64-bit integer, otherwise its value |
| Utils.ParseInt | backend/pkg/utils/utils.go:93-104 | the default when the text is empty or not a 64-bit integer, otherwise its value |
| Utils.ParseIntItoa | backend/pkg/utils/utils.go:93-104 | ParseInt reads back the decimal text of any 64-bit integer, whatever the default |
| Utils.ParseFloat64 | backend/pkg/utils/utils.go:107-118 | the default when the text is empty or fails to parse, otherwise the parsed value |
| Utils.Contains | backend/pkg/utils/utils.go:121-128 | true iff some element equals the item |
| Utils.MaxInt | backend/pkg/utils/utils.go:131-136 | the result is one of the arguments and at least both |
| Utils.MinInt | backend/pkg/utils/utils.go:139-144 | the result is one of the arguments and at most both |
| Utils.TruncateString | backend/pkg/utils/utils.go:147-152 | a string within the limit is returned unchanged; a longer one becomes exactly `maxLength` characters: its first `maxLength - 3` followed by `...` |
| Entities.CreateSlug | backend/internal/domain/entities/category.go:24-29 | a non-empty slug is kept; an empty one becomes generateSlug(name), which is a well-formed slug |
| Entities.UpdateSlug | backend/internal/domain/entities/category.go:31-36 | the slug is regenerated only when the name changed and the slug is empty |
| Entities.CreateSlugIdempotent | backend/internal/domain/entities/category.go:24-29 | running the create hook's slug rule twice gives the same slug as once |
| Entities.Category.constructor | backend/internal/domain/entities/category.go:9-22 | a category object holds exactly the given record |
| Entities.Category.BeforeCreate | backend/internal/domain/entities/category.go:24-29 | returns nil and changes only the slug, filling an empty one from the name |
| Entities.Category.BeforeUpdate | backend/internal/domain/entities/category.go:31-36 | returns nil and changes only the slug, regenerating it only when the name changed and the slug is empty |
| Entities.SubCategory.constructor | backend/internal/domain/entities/subcategory.go:9-24 | a subcategory object holds exactly the given record |
| Entities.SubCategory.BeforeCreate | backend/internal/domain/entities/subcategory.go:26-31 | returns nil and changes only the slug, filling an empty one from the name |
| Entities.SubCategory.BeforeUpdate | backend/internal/domain/entities/subcategory.go:33-38 | returns nil and changes only the slug, regenerating it only when the name changed and the slug is empty |
| AppErrors.NewAppError | backend/pkg/errors/errors.go:41-69 | type, message, details and wrapped error are kept; validation and bad request give 400, not found 404, conflict 409, unauthorized 401, forbidden 403, service unavailable 503, every other type 500 |
| AppErrors.StatusCodes | backend/pkg/errors/errors.go:49-66 | the status is 500 exactly for the types without their own case, and always one of 400, 401, 403, 404, 409, 500, 503 |
| AppErrors.NewNotFoundError | backend/pkg/errors/errors.go:75-77 | message "<resource> not found", status 404, no details, nothing wrapped |
| AppErrors.ConstructorsStatus | backend/pkg/errors/errors.go:71-101 | each constructor yields its type, the matching status and the given message and details |
| AppErrors.AppErrorTextShape | backend/pkg/errors/errors.go:30-35 | `Error()` is "Type: Message", followed by " - " and the wrapped error's text when one is wrapped |
| AppErrors.GetStatusCode | backend/pkg/errors/errors.go:111-116 | 500 when no application error is on the unwrap chain |
| AppErrors.GetErrorType | backend/pkg/errors/errors.go:118-123 | INTERNAL_ERROR when no application error is on the unwrap chain |
| AppErrors.WrappedAppErrorKeepsStatus | backend/pkg/errors/errors.go:103-123 | through any number of `%w` wrappers, GetStatusCode and GetErrorType report the application error's own status and type |
| AppErrors.WrapValidationError | backend/pkg/errors/errors.go:125-127 | a 400 validation error whose details are the wrapped error's text and which wraps that error |
| AppErrors.WrapInternalError | backend/pkg/errors/errors.go:129-131 | a 500 internal error with no details, wrapping the given error |
| AppErrors.WrapInternalErrorHidesInnerStatus | backend/pkg/errors/errors.go:129-131 | wrapping an application error as internal yields status 500 whatever the inner status, and Unwrap gives the inner error back |
| Config.Validate | backend/internal/config/config.go:107-128 | an empty database password fails first, then missing AWS credentials, then an environment outside development/staging/production/test; it succeeds iff all three checks pass |
| Config.EnvironmentFlags | backend/internal/config/config.go:130-136 | never both development and production, and either one is a valid environment |
| Config.SplitSpaces | backend/internal/config/config.go:138-147 | splitting on single spaces yields at least one field |
| Config.FirstSpace | backend/internal/config/config.go:138-147 | the index of the first space in a text that has one |
| Config.SplitFirst | backend/internal/config/config.go:138-147 | splitting `a + " " + b` gives `a` followed by the fields of `b` when `a` has no space |
| Config.SplitJoin | backend/internal/config/config.go:138-147 | joining space-free fields with single spaces and splitting again gives the fields back |
| Config.GetDSNFields | backend/internal/config/config.go:138-147 | when no setting holds a space, the DSN is exactly host, port, user, password, dbname and sslmode, in that order |
| Config.GetEnv | backend/internal/config/config.go:149-154 | the default exactly when the variable is unset or empty, otherwise its value |
| Config.GetIntEnv | backend/internal/config/config.go:156-163 | the default when the variable is unset, empty or not an integer, otherwise its value |
| Config.GetDurationEnv | backend/internal/config/config.go:165-172 | the default when the variable is unset, empty or not a duration, otherwise the parsed duration |
| Config.LoadSucceedsIff | backend/internal/config/config.go:58-105 | loading succeeds iff DB_PASSWORD, AWS_ACCESS_KEY_ID and AWS_SECRET_ACCESS_KEY are set and SERVER_ENVIRONMENT is unset or names a valid environment |
| RateLimiter.NewRateLimiter | backend/internal/interfaces/middleware/rate_limiter.go:28-44 | a zero limit becomes 100, a zero window one minute and an empty prefix "rate_limit"; non-zero settings are kept |
| RateLimiter.CheckRateLimit | backend/internal/interfaces/middleware/rate_limiter.go:86-108 | the reset time is the end of the current window, after now and at most one window ahead; a counter error is returned with nothing allowed; otherwise remaining = max(0, limit − count) and allowed iff count ≤ limit |
| RateLimiter.RemainingCountsDown | backend/internal/interfaces/middleware/rate_limiter.go:100-105 | each further request lowers the remaining allowance by one until it is 0, and from then on requests are refused |
| RateLimiter.Middleware | backend/internal/interfaces/middleware/rate_limiter.go:46-84 | a counter error passes the request without headers; the request is rejected iff the count exceeds the limit, with status 500; otherwise exactly the three headers for the limit, the remaining count and the window's reset time in Unix seconds |
| RateLimiter.ClientId | backend/internal/interfaces/middleware/rate_limiter.go:110-127 | the IP comes from X-Forwarded-For, else X-Real-IP, else the peer address, followed by ":" and the user agent: the whole agent when it has at most 50 bytes, exactly its first 50 bytes otherwise |
| RateLimiter.FirstMethodPrefix | backend/internal/interfaces/middleware/rate_limiter.go:218-224 | the first key, in iteration order, that names the method and whose path part prefixes the path; none when no key applies |
| RateLimiter.FirstPathPrefix | backend/internal/interfaces/middleware/rate_limiter.go:232-238 | the first key, in iteration order, that does not end in a colon and prefixes the path; none when no key applies |
| RateLimiter.GetRuleForRequest | backend/internal/interfaces/middleware/rate_limiter.go:207-242 | the loop picks the rule of RuleFor: exact `METHOD:path`, then a method prefix, then the exact path, then a path prefix, then the default |
| RateLimiter.ScanAsWrittenAgrees | backend/internal/interfaces/middleware/rate_limiter.go:218-224 | where the slicing method-prefix loop does not panic, it picks the key the bounds-checked loop picks |
| RateLimiter.PostToRootScanPanics | backend/internal/interfaces/middleware/rate_limiter.go:218-224 | with the built-in keys, a POST to "/" makes the method-prefix loop slice past the end of the path |
| RateLimiter.RuleAsWritten | backend/internal/interfaces/middleware/rate_limiter.go:207-242 | when the rule selection as written returns, it returns the rule RuleFor picks |
| RateLimiter.PostToRootPanics | backend/internal/interfaces/middleware/rate_limiter.go:218-224 | a POST to "/" panics in the selection as written, where the corrected selection gives the default rule |
| RateLimiter.Live | backend/internal/interfaces/middleware/rate_limiter.go:300-316 | the timestamps kept by cleanup are exactly those strictly after the cutoff, and there are never more of them than before |
| RateLimiter.LiveIdempotent | backend/internal/interfaces/middleware/rate_limiter.go:300-316 | cleaning twice with the same cutoff is the same as cleaning once |
| RateLimiter.LiveLaterCutoff | backend/internal/interfaces/middleware/rate_limiter.go:300-316 | cleaning at an earlier cutoff and then at a later one is the same as cleaning once at the later one |
| RateLimiter.SimpleRateLimiter.constructor | backend/internal/interfaces/middleware/rate_limiter.go:270-276 | an empty map with the given limit and window |
| RateLimiter.SimpleRateLimiter.Cleaned | backend/internal/interfaces/middleware/rate_limiter.go:300-316 | the IP's entry becomes its live timestamps and is deleted when none remain; every other IP is untouched |
| RateLimiter.SimpleRateLimiter.Cleanup | backend/internal/interfaces/middleware/rate_limiter.go:300-316 | the loop leaves the map Cleaned describes and keeps every entry non-empty and within the limit |
| RateLimiter.SimpleRateLimiter.Handle | backend/internal/interfaces/middleware/rate_limiter.go:278-298 | admitted iff the live count is below the limit; admission appends exactly `now` after cleanup, rejection only cleans; no IP ever holds more than `limit` timestamps |
| RateLimiter.AdmittedWindowWithinLimit | backend/internal/interfaces/middleware/rate_limiter.go:286-296 | after an admission the IP's window holds its live timestamps plus `now`, at most `limit` of them |
| RateLimiter.LiveAllKept | backend/internal/interfaces/middleware/rate_limiter.go:300-316 | cleaning keeps a list whose timestamps are all after the cutoff unchanged |
| RateLimiter.FirstMethodPrefixUnique | backend/internal/interfaces/middleware/rate_limiter.go:218-224 | when exactly one key applies as a method prefix, the iteration order does not matter |
| RateLimiter.PostUploadUsesPostRule | backend/internal/interfaces/middleware/rate_limiter.go:141-154 | in any iteration order, a POST to /v1/upload gets the POST rule, which differs from the upload rule |
| RateLimiter.NoBuiltInKeyForApiPath | backend/internal/interfaces/middleware/rate_limiter.go:141-154 | no built-in key matches a path starting "/a" exactly, as a method prefix or as a path prefix |
| RateLimiter.ApiRequestsUseDefaultRule | backend/internal/interfaces/middleware/rate_limiter.go:207-242 | every request whose path starts "/a" (all of /api/v1) gets the default rule, for any method and iteration order |
| Store.ActiveSubCategoriesOf | backend/internal/infrastructure/database/category_repository.go:114-127 | the active subcategories preloaded for a category are among its subcategories |
| Store.OrderClause | backend/internal/infrastructure/database/item_repository.go:92-100 | without a column, "display_order ASC, created_at DESC"; with one, that column followed by ASC or DESC |
| CategoryService.Internal | backend/internal/domain/services/category_service.go:55-60 | a repository failure is reported as a 500 internal error |
| CategoryService.FindConflict | backend/internal/domain/services/category_service.go:62-66 | the conflict loop finds a conflict iff some candidate has exactly the requested name and, on update, another id |
| CategoryService.NewCategory | backend/internal/domain/services/category_service.go:68-77 | the new category takes name, description and display order from the request and its slug from the name; it is active unless the request says otherwise |
| CategoryService.CreateResult | backend/internal/domain/services/category_service.go:49-92 | a failed name search gives an internal error; a same-named candidate gives a conflict; the create succeeds iff neither happens and the insert succeeds, and then yields NewCategory |
| CategoryService.Create | backend/internal/domain/services/category_service.go:49-92 | the store gains exactly the new category under the next id on success and is unchanged on failure; the result is CreateResult |
| CategoryService.GetByID | backend/internal/domain/services/category_service.go:94-108 | the stored category when it exists; a 404 when it does not; a 500 when the lookup fails |
| CategoryService.Updated | backend/internal/domain/services/category_service.go:154-161 | name, description and display order are always replaced; active only when the request gives it; id and slug are kept |
| CategoryService.UpdateResult | backend/internal/domain/services/category_service.go:120-177 | a failed lookup is the 500 "Failed to get category"; not found for a missing id; a conflict exactly when a rename reaches the name search without error and another category holds the name; success exactly when the lookup, the name search (only run for a rename) and the save all succeed with no conflict, and then the Updated record |
| CategoryService.UpdateConflictNeedsAnotherCategory | backend/internal/domain/services/category_service.go:135-152 | keeping the name, or a search that finds only this category, never conflicts |
| CategoryService.Save | backend/internal/domain/services/category_service.go:154-161 | the field assignments yield the Updated record |
| CategoryService.Update | backend/internal/domain/services/category_service.go:120-177 | the store holds the Updated record on success and is unchanged on failure; the result is UpdateResult |
| CategoryService.DeleteResult | backend/internal/domain/services/category_service.go:179-219 | not found for a missing id; a conflict iff the category has active subcategories; success iff it exists, has none and every call succeeds |
| CategoryService.DeleteIgnoresInactiveSubCategories | backend/internal/domain/services/category_service.go:193-212 | a category whose subcategories are all inactive is deleted |
| CategoryService.Delete | backend/internal/domain/services/category_service.go:179-219 | on success exactly that category is removed, otherwise nothing changes; the result is DeleteResult |
| CategoryService.Toggled | backend/internal/domain/services/category_service.go:235-245 | only the active flag changes, and it is negated |
| CategoryService.ToggledTwice | backend/internal/domain/services/category_service.go:221-257 | toggling twice restores the category |
| CategoryService.WriteResult | backend/internal/domain/services/category_service.go:221-257 | not found for a missing id; on success the record as re-read after the write |
| CategoryService.ToggleActive | backend/internal/domain/services/category_service.go:221-257 | when the write happens the stored category is Toggled and returned as re-read; otherwise nothing changes |
| CategoryService.UpdateDisplayOrder | backend/internal/domain/services/category_service.go:259-296 | when the write happens only the display order changes and the record is returned as re-read; otherwise nothing changes |
| SubCategoryService.CountError | backend/internal/domain/services/subcategory_service.go:62-71 | a count failure keeps the application error on its chain |
| SubCategoryService.CreateResult | backend/internal/domain/services/subcategory_service.go:56-72 | a zero display order becomes the number of subcategories in the same category plus one, and a failed count aborts; a given slug is kept and an empty one comes from the name; other fields are kept |
| SubCategoryService.Create | backend/internal/domain/services/subcategory_service.go:56-72 | the store gains exactly the new subcategory on success and is unchanged on failure; the result is CreateResult |
| SubCategoryService.Insert | backend/internal/domain/entities/subcategory.go:26-31 | the stored record gets the new id and the create hook's slug |
| SubCategoryService.Merge | backend/internal/domain/services/subcategory_service.go:82-96 | a non-empty name replaces name and slug; description only when non-empty; category and display order only when non-zero; active always |
| SubCategoryService.MergeIdempotent | backend/internal/domain/services/subcategory_service.go:82-96 | applying the same update twice is the same as once |
| SubCategoryService.MergeOfBlankUpdate | backend/internal/domain/services/subcategory_service.go:82-96 | a blank update still overwrites the active flag and nothing else |
| SubCategoryService.ModifyResult | backend/internal/domain/services/subcategory_service.go:74-123 | a failed lookup returns its error; a missing id is not found; success iff the id exists and lookup and save succeed |
| SubCategoryService.ModifyAsWritten | backend/internal/domain/services/subcategory_service.go:74-81 | as written, a missing id dereferences the nil record |
| SubCategoryService.ModifyAsWrittenPanicsWhereCorrectedIsNotFound | backend/internal/domain/services/subcategory_service.go:74-123 | the code as written panics exactly where the corrected code answers not found, and agrees with it everywhere else |
| SubCategoryService.UpdateOfMissingIdPanics | backend/internal/domain/services/subcategory_service.go:74-81 | updating id 1 of an empty table panics as written |
| SubCategoryService.Assign | backend/internal/domain/services/subcategory_service.go:82-96 | the field assignments yield the Merge record |
| SubCategoryService.Update | backend/internal/domain/services/subcategory_service.go:74-99 | the store holds the Merge record on success and is unchanged on failure; the result is ModifyResult |
| SubCategoryService.Toggled | backend/internal/domain/services/subcategory_service.go:105-113 | only the active flag changes, and it is negated |
| SubCategoryService.ToggledTwice | backend/internal/domain/services/subcategory_service.go:105-113 | toggling twice restores the subcategory |
| SubCategoryService.ToggleActive | backend/internal/domain/services/subcategory_service.go:105-113 | on success the stored subcategory is Toggled, otherwise nothing changes |
| SubCategoryService.UpdateDisplayOrder | backend/internal/domain/services/subcategory_service.go:115-123 | on success only the display order changes, otherwise nothing changes |
| SubCategoryService.GetByCategoryIDSelects | backend/internal/domain/services/subcategory_service.go:44-54 | the query selects exactly the active subcategories of the category, by ascending display order |
| ItemService.CountError | backend/internal/domain/services/item_service.go:78-84 | a count failure keeps the application error on its chain |
| ItemService.CreateResult | backend/internal/domain/services/item_service.go:76-97 | a zero display order becomes the item count of the subcategory plus one, and a failed count aborts; the item is always available; an empty currency becomes USD; other fields are kept |
| ItemService.Create | backend/internal/domain/services/item_service.go:76-97 | the store gains exactly the new item on success and is unchanged on failure; the result is CreateResult |
| ItemService.Merge | backend/internal/domain/services/item_service.go:107-130 | name, description, currency and image only when non-empty; price, subcategory and display order only when non-zero; availability and dietary info always |
| ItemService.MergeIdempotent | backend/internal/domain/services/item_service.go:107-130 | applying the same update twice is the same as once |
| ItemService.MergeOfBlankUpdate | backend/internal/domain/services/item_service.go:107-130 | a blank update still overwrites availability and dietary info, and nothing else |
| ItemService.UpdateResult | backend/internal/domain/services/item_service.go:99-133 | a failed lookup returns its error unchanged; a missing id is not found; success iff the item exists and lookup and save succeed |
| ItemService.UpdateAsWritten | backend/internal/domain/services/item_service.go:99-106 | as written, a missing id dereferences the nil record, and otherwise agrees with UpdateResult |
| ItemService.UpdateOfMissingItemPanics | backend/internal/domain/services/item_service.go:99-106 | updating a missing item panics as written, where the corrected update answers not found |
| ItemService.Assign | backend/internal/domain/services/item_service.go:107-130 | the field assignments yield the Merge record |
| ItemService.Update | backend/internal/domain/services/item_service.go:99-133 | the store holds the Merge record on success and is unchanged on failure; the result is UpdateResult |
| ItemService.SearchFilter | backend/internal/domain/services/item_service.go:71-74 | the search text becomes the query and no other filter field changes |
| ItemService.GetBySubCategoryIDSelects | backend/internal/domain/services/item_service.go:47-57 | the query selects exactly the available items of the subcategory, by ascending display order |
| ItemService.GetFeaturedSelects | backend/internal/domain/services/item_service.go:59-69 | the query selects exactly the available items, newest first, with the given limit |
| ItemService.SearchSelects | backend/internal/domain/services/item_service.go:71-74 | an item matches the search iff it matches the caller's other conditions and its name or description contains the query |
| MenuService.Kept | backend/internal/domain/services/menu_service.go:122-146 | the shown subcategories are among the given ones, each with the items its query listed, and there are no more of them |
| MenuService.KeptAll | backend/internal/domain/services/menu_service.go:122-146 | when no item query fails, every subcategory is shown, in order, with its items |
| MenuService.AvailableIn | backend/internal/domain/services/menu_service.go:206-210 | the available items of a list are no more than its length |
| MenuService.AvailableAtMostTotal | backend/internal/domain/services/menu_service.go:203-216 | over any subcategories, the available items are at most the items |
| MenuService.AvailableTotalOfAvailableItems | backend/internal/domain/services/menu_service.go:144-145 | when every listed item is available, the available total equals the item total |
| MenuService.AllAvailable | backend/internal/domain/services/menu_service.go:124-145 | a list of available items counts all of them as available |
| MenuService.MenuOf | backend/internal/domain/services/menu_service.go:114-149 | the menu has one entry per category, in the same order |
| MenuService.SubCategoryTotalCountsOmitted | backend/internal/domain/services/menu_service.go:120-136 | the subcategory total counts those whose item query failed, so it is at least the number shown and equal when no query fails |
| MenuService.CollectSubCategories | backend/internal/domain/services/menu_service.go:122-146 | the inner loop yields the Kept subcategories and their item total |
| MenuService.GetCompleteMenu | backend/internal/domain/services/menu_service.go:95-162 | a failed category query is a wrapped internal error; otherwise one menu entry per category, the category count, the subcategory total, and equal item and available totals over the shown subcategories |
| MenuService.CollectWithAvailability | backend/internal/domain/services/menu_service.go:182-211 | the loop yields the Kept subcategories, their item total and their available total |
| MenuService.CountAvailable | backend/internal/domain/services/menu_service.go:206-210 | the loop counts the available items |
| MenuService.GetMenuByCategory | backend/internal/domain/services/menu_service.go:164-224 | a failed lookup is a wrapped internal error; a missing category is a 404; otherwise the shown subcategories, the count of all of them, and the item and available totals |
| MenuService.MenuByCategoryAvailableAtMostTotal | backend/internal/domain/services/menu_service.go:213-217 | in the category menu the available items never exceed the items |
| MenuService.SearchItemFilter | backend/internal/domain/services/menu_service.go:231-244 | a zero limit becomes 20, another limit and the offset are kept, and a count is always requested |
| MenuService.TruncatedQuotient | backend/internal/infrastructure/database/item_repository.go:269-275 | Go's division truncates toward zero |
| MenuService.SearchMenuItems | backend/internal/domain/services/menu_service.go:226-265 | an empty query is a 400 before any search; a failed search is a 500; on success the items and pagination come from the search and the result count is the pagination total |
| MenuService.FeaturedLimit | backend/internal/domain/services/menu_service.go:268-270 | a limit ≤ 0 becomes 10, and a positive limit is kept |
| MenuService.GetFeaturedItems | backend/internal/domain/services/menu_service.go:267-281 | the featured items listed with the effective limit, or a 500 when that listing fails |
| S3.Ext | backend/internal/infrastructure/aws/s3.go:250 | `filepath.Ext` is the suffix from the last dot of the final path element, or empty when that element has no dot |
| S3.ExtIdempotent | backend/internal/infrastructure/aws/s3.go:250 | the extension of an extension is itself |
| S3.ExtOfDotted | backend/internal/infrastructure/aws/s3.go:250 | a dot followed by no dot or slash is its own extension |
| S3.ExtAppend | backend/internal/infrastructure/aws/s3.go:279-281 | prefixing a name that has an extension does not change it |
| S3.ExtAfterSlash | backend/internal/infrastructure/aws/s3.go:279-281 | a final element without a dot has no extension, whatever precedes the slash |
| S3.IsValidImageType | backend/internal/infrastructure/aws/s3.go:248-259 | true iff the lower-cased extension is .jpg, .jpeg, .png, .webp or .gif |
| S3.IsValidContentType | backend/internal/infrastructure/aws/s3.go:261-276 | true iff the type is exactly image/jpeg, image/png, image/webp or image/gif |
| S3.GenerateUploadKey | backend/internal/infrastructure/aws/s3.go:278-282 | the key is the folder trimmed of slashes, "/", the UUID and the original extension |
| S3.ExtOfUploadKey | backend/internal/infrastructure/aws/s3.go:88-90 | the upload key keeps the original file's extension |
| S3.UploadFile | backend/internal/infrastructure/aws/s3.go:76-127 | extension, then size over 10 MiB, then read, then detected type, each failure returning its error with nothing sent; otherwise the object is sent public-read under the generated key and the result reports key, location, bucket, size and type |
| S3.UploadOnlyAfterChecks | backend/internal/infrastructure/aws/s3.go:76-127 | an upload is sent iff every check passes; what is sent is the read content under the generated key with a whitelisted type; success iff it was sent and the send succeeded |
| S3.ExactlyTenMiBPassesSizeCheck | backend/internal/infrastructure/aws/s3.go:83-85 | a file of exactly 10 MiB is accepted and one byte more is "File too large" |
| S3.TypeCheckedBeforeSize | backend/internal/infrastructure/aws/s3.go:77-85 | a file with a bad extension that is also too large is refused for its type |
| S3.PresignExpiry | backend/internal/infrastructure/aws/s3.go:142-144 | a zero expiry becomes 15 minutes, and any other is kept |
| S3.Presign | backend/internal/infrastructure/aws/s3.go:141-157 | the URL presigned for the effective expiry, or a wrapped 500 |
| S3.GetPresignedURL | backend/internal/infrastructure/aws/s3.go:141-157 | a download URL presigned for the effective expiry, 15 minutes by default |
| S3.GetPresignedUploadURL | backend/internal/infrastructure/aws/s3.go:159-177 | an upload URL presigned for the effective expiry, 15 minutes by default |
| S3.FileExists | backend/internal/infrastructure/aws/s3.go:179-194 | true iff the HEAD succeeds; a failure whose text contains 404 or NotFound is false with no error; any other failure is a wrapped internal error |
| S3.FileInfoError | backend/internal/infrastructure/aws/s3.go:196-211 | a not-found failure is a 404 "File not found", any other a 500 |
| S3.HeadClassificationsAgree | backend/internal/infrastructure/aws/s3.go:179-211 | FileExists answers "absent" exactly when GetFileInfo answers 404 |
| S3.StatusTextIsNotFound | backend/internal/infrastructure/aws/s3.go:186-188 | any error text containing "404" means the file is absent |
| S3.ListFilesMaxKeys | backend/internal/infrastructure/aws/s3.go:230-233 | a zero maximum becomes 100, and any other is kept |
| S3.GetPublicURL | backend/internal/infrastructure/aws/s3.go:284-286 | `https://{bucket}.s3.{region}.amazonaws.com/` followed by the key |
| S3.PublicURLInjective | backend/internal/infrastructure/aws/s3.go:284-286 | two keys with the same public URL are the same key |
| ApiClient.CacheKey | frontend/src/app/services/api/client.js:25-27 | the key is the URL, "_" and the JSON of the options |
| ApiClient.CacheKeyInjective | frontend/src/app/services/api/client.js:25-27 | for URLs without "_", equal keys come from equal URLs and options |
| ApiClient.Lookup | frontend/src/app/services/api/client.js:36-43 | the cached data iff an entry exists and expires after now, otherwise null |
| ApiClient.AfterLookup | frontend/src/app/services/api/client.js:36-43 | a missing or expired entry is deleted, a live one kept, and no other key changes |
| ApiClient.LookupAfterSet | frontend/src/app/services/api/client.js:29-43 | a stored value is read back until it expires and null afterwards; other keys read as before |
| ApiClient.LookupStable | frontend/src/app/services/api/client.js:36-43 | looking up twice at the same time answers and evicts as looking up once |
| ApiClient.ParseErrorResponse | frontend/src/app/services/api/client.js:118-128 | the body's `error` object when present, else the body; an unparsable body gives the status text (or "Unknown error") and code unknown_error |
| ApiClient.HttpError | frontend/src/app/services/api/client.js:83-90 | an APIError with the response status and the body's code, and the body's message or "HTTP <status>" |
| ApiClient.RetryLoop | frontend/src/app/services/api/client.js:78-115 | the loop returns what Retry describes and sleeps the delays Delays describes |
| ApiClient.DelaysAreBackoff | frontend/src/app/services/api/client.js:112-113 | the delay after failed attempt k is delayMs·factor^(k−1), and fewer delays are slept than attempts remain |
| ApiClient.DefaultBackoff | frontend/src/app/services/api/config.js:13-19 | with the default settings at most two sleeps happen, of 1000 and 2000 ms |
| ApiClient.ReturnsFirstResponse | frontend/src/app/services/api/client.js:78-115 | the request returns some data iff some attempt within the limit got it and every earlier attempt failed without an answer |
| ApiClient.ApiErrorsAreNotRetried | frontend/src/app/services/api/client.js:101-110 | an HTTP error or a timeout is thrown at once as an APIError, with no sleep |
| ApiClient.NonGetLeavesCache | frontend/src/app/services/api/client.js:53-97 | a non-GET request neither reads nor writes the cache |
| ApiClient.RequestTouchesOnlyItsKey | frontend/src/app/services/api/client.js:49-116 | a request changes no cache entry but its own key's |
| ApiClient.RepeatedGetServedFromCache | frontend/src/app/services/api/client.js:53-58 | a GET that fetched truthy data is answered from the cache, without a fetch, until the TTL passes |
| ApiClient.FalsyCachedValueRefetched | frontend/src/app/services/api/client.js:54-57 | a live but falsy cached value does not stop the fetch |
| ApiClient.GetUrl | frontend/src/app/services/api/client.js:130-134 | "?" and the query are appended only when the query is non-empty |
| ApiClient.Client.constructor | frontend/src/app/services/api/client.js:14-19 | an empty cache with the given base URL, a 10 s timeout and the default retry settings |
| ApiClient.Client.SetCache | frontend/src/app/services/api/client.js:29-34 | the key maps to the data, expiring at now plus the TTL (five minutes by default) |
| ApiClient.Client.GetCache | frontend/src/app/services/api/client.js:36-43 | answers Lookup and leaves the cache AfterLookup |
| ApiClient.Client.ClearCache | frontend/src/app/services/api/client.js:45-47 | the cache becomes empty |
| ApiClient.Client.Request | frontend/src/app/services/api/client.js:49-116 | reply, fetch, sleeps and new cache are those RequestSpec gives for the key of the base URL, endpoint and options |
| ApiClient.Client.Get | frontend/src/app/services/api/client.js:130-134 | a GET of the built URL with no options, as RequestSpec describes |

## Left out

- HTTP handlers, routing, JSON envelopes, logging, the Redis client, migrations and the dashboard are not part of this model. They are library glue around the rules above.
- The GORM repositories are not modelled as SQL. They become the `Database` maps, and the list queries become the filter predicates of `Store`. `LIKE` is modelled as substring containment with a case-mapping parameter, so `%` and `_` in a search query are matched literally, where SQL treats them as wildcards (`Store.SearchMatches`).
- Strings are sequences of characters. Byte lengths (the 100-character slug cut, the 50-byte user-agent cut, `TruncateString`) are counted in characters, which agrees on ASCII text. Unicode case folding is a parameter.
- Go's fixed-width integers are unbounded here. An `int64` total or count near its limits would overflow in Go; `Utils.Atoi` does bound its result to 64 bits.
- Prices and other floating-point values are `real`. `strconv.ParseFloat`, `time.ParseDuration`, UUIDs, `http.DetectContentType`, the clock, `fetch`, the AWS SDK and the Redis counter are parameters.
- Concurrency is not modelled. The `SimpleRateLimiter` map is unsynchronized in Go and is modelled sequentially. The timeout middleware's goroutine is left out.
- `Utils.TruncateString`: requires `maxLength >= 3` when the text is longer than the limit, because Go slices with a negative bound there and panics.
- `RateLimiter.CheckRateLimit`: requires a non-negative clock reading. Times are nanoseconds since Go's zero time (January 1 of year 1, UTC), so every real clock reading is non-negative; `Unix` converts to seconds since 1970.
- `Store.OrderClause`: states only that the caller's column gets ASC or DESC, not which one. That would need the upper-case mapping to be fixed. The column name is passed into SQL unchecked in Go; that is not modelled.
- `ApiClient.RepeatedGetServedFromCache`: requires that the first GET fetched. A GET answered from the cache does not refresh the entry, so the lemma does not hold for it.
- `ApiClient.Client.Request`: the JavaScript timeout is cleared after the first attempt, so later attempts cannot time out. The model lets any attempt end as `Aborted`, which is weaker than the source. Falsy-but-present values such as `NaN` are not modelled; numbers are integers.
- `ApiClient` post, put, patch, delete and uploadFile are not modelled separately. Each calls `request` with a method, which `Client.Request` covers; the request body is not modelled at all. In particular uploadFile's `FormData` goes through `JSON.stringify` like any body, which yields `"{}"`, so no file would reach the server.
- `S3.UploadFile`: the key keeps the original extension's letter case. The file is read whole, and only its first 512 bytes matter to content detection, which is a parameter.
- S3 `DeleteFile` and `CopyFile` are not modelled. They only wrap an SDK error, as `S3.Presign` does.
- `ItemService.CreateResult`: the id on the input record is ignored; the store hands out the next id. GORM would insert an explicit non-zero id as given.
- `CategoryService.UpdateResult`: GORM's `Save` writes every column and does not report a changed column to hooks, so the BeforeUpdate hook's "name changed" test is modelled as false (`CategoryService.Save` passes `false`) and the slug is never regenerated on update.
- Service errors that mutate the caller's record before failing are not modelled; the model returns fresh values.
- `CategoryService.NewCategory`, `CategoryService.CreateResult`, `CategoryService.Create`, `SubCategoryService.CreateResult`, `SubCategoryService.Create`, `ItemService.CreateResult` and `ItemService.Create`: the entities' `Active` (and the item's `Available`) column carries a GORM default of true, and GORM does not write a zero value (`false`) into a column with a default on insert. So a record created with `active: false` (or `available: false`) is stored as active (available) in Go. The model stores the requested flag.
- `SubCategoryService.Merge`, `SubCategoryService.Update`, `ItemService.Merge` and `ItemService.Update`: the repository's `GetByID` preloads the parent (`Category`, `SubCategory`), and `Save` on the fetched record first saves that preloaded parent and copies its id back into the foreign key. A non-zero new `CategoryID` or `SubCategoryID` in the update is therefore overwritten with the old parent's id, so a move is lost in Go. The model stores the new parent id.
- `MenuService.GetCompleteMenu` and `MenuService.GetMenuByCategory` (backend/internal/domain/services/menu_service.go:182-198): Go before 1.22 reuses the loop variable, so every `&subCategory` points to the last subcategory. The model uses each subcategory's own value.
- `SubCategoryService.CreateResult`: when the generated slug is empty the insert hook falls back to the entity slug generator. The contract states the slug only for a non-empty generated slug.
- The category name search asks the repository for one candidate (Limit 1), so a conflict depends on which row comes first. The model takes the candidates as a parameter.

## Findings

| source | as written | input that shows it | evidently intended | confidence | as-written member | corrected member |
|---|---|---|---|---|---|---|
| backend/internal/domain/services/subcategory_service.go:74-123 and backend/internal/domain/services/item_service.go:99-133 | the repository's GetByID returns a nil record and no error for a missing id, and Update, ToggleActive and UpdateDisplayOrder then read or write that nil record | Update of id 1 on an empty table, called on the service directly; through HTTP, the handlers (not part of this model) look the record up first and answer 404, so the panic needs a delete between the handler's lookup and the service's | answer not found (404) and change nothing | not executed | SubCategoryService.ModifyAsWritten, SubCategoryService.ModifyAsWrittenPanicsWhereCorrectedIsNotFound, SubCategoryService.UpdateOfMissingIdPanics, ItemService.UpdateAsWritten, ItemService.UpdateOfMissingItemPanics | SubCategoryService.ModifyResult, SubCategoryService.Update, SubCategoryService.ToggleActive, SubCategoryService.UpdateDisplayOrder, ItemService.UpdateResult, ItemService.Update |
| backend/internal/interfaces/middleware/rate_limiter.go:218-224 | the method-prefix loop slices `path[:len(key)-len(method)-1]` and `key[:len(method)+1]` without checking lengths | POST to "/" with the built-in rules (key "POST:/v1/") | skip keys that do not fit, and fall through to the default rule | not executed | RateLimiter.PostToRootScanPanics, RateLimiter.RuleAsWritten, RateLimiter.PostToRootPanics | RateLimiter.RuleFor, RateLimiter.GetRuleForRequest |
