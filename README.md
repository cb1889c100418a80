# TAmJ entitlements and market snapshot, in Dafny

This project models two parts of the TAmJ site.

**Entitlements (js/auth.js, js/plan-gate.js).** In demo mode the browser
side keeps everything itself:
- a built-in list of demo accounts, to which registration appends;
- the signed-in user, held both in a module variable and in the
  `tamj_demo_user` session slot;
- the plan slot `tamj_plan`, which is free or pro and holds either a bare
  string or a checkout record;
- one usage counter per user and calendar month, stored as a decimal string
  under `tamj_usage_<id>_<year>-<MM>`;
- per-tool payment tickets, each valid for 24 hours.

A free user may run a simulation three times per month. A pro user runs
without limit. The header badge shows how many runs are left.

`Auth.Entitlements` is a class whose fields are those stores, and its
methods update them in place. `PlanGate.Page` holds the page's badge and
limit dialog, and its `CheckUsageGate` is the gate each simulation calls.
The module `JsString` supplies the JavaScript primitives the counters go
through: `trim`, `toLowerCase`, `parseInt` and `String(n)`. The central
facts are:
- in a fresh month a free user's first three runs pass the gate, and the
  fourth and every later run is refused;
- a pro user never moves the counter;
- `parseInt(String(n)) == n` on unbounded integers, so every increment
  reads back (JavaScript's double-precision numbers are not modelled; the
  gate stops counting at 3);
- a new month gives a new key, so the allowance resets monthly.

**Daily market snapshot (scripts/fetch-market.js).** The script reads the
previous snapshot and asks a quote service about five symbols. A symbol
whose quote is missing falls back to the previous value, or else to its
baseline. The script then merges the last 30 dates of all histories into
one table with one row per date and one cell per symbol. `FetchMarket.GetQuote`,
`ResolveSymbols`, `CollectDates`, `MergeEntry`, `Merge` and `Run` keep the
loops of the script. Each is proved equal to a specification function:
`QuoteOf`, `Currents`/`Histories`, `Gathered`, `EntryFor`, `MergedFor` and
`RunSpec`. The lemmas about those functions state what the snapshot
guarantees:
- the kept dates are the latest 30, in ascending order;
- every row has a cell for each of the five symbols, and each cell holds a
  number whenever every baseline is truthy, as the defaults are;
- the baselines carry forward;
- one symbol's answer does not affect another symbol;
- an offline run keeps the previous values and is stable when repeated.

`StringOrder` models the default `sort()` order on strings and
`slice(-n)`. `Wrappers` holds `Option`. Files: `wrappers.dfy`,
`js_string.dfy`, `auth.dfy`, `plan_gate.dfy`, `string_order.dfy` and
`fetch_market.dfy`.

Two behaviours of the code are easy to miss, and the model keeps both:
- **A demo login does not reset the plan to the account's own plan.** A
  pro account sets the plan to pro. Any other account writes `free` only
  when the slot is empty (js/auth.js:95-96), so a pro slot left by an
  earlier login stays pro. `Auth.Entitlements.Login` states exactly this.
- **A quote whose current value is 0 or null counts as failed**
  (scripts/fetch-market.js:102): the symbol falls back to the previous
  value or the baseline and contributes no history. `FetchMarket.Resolve`
  states this.

## Model

| member | source | states |
|---|---|---|
| JsString.Succ | js/auth.js:222 | `count + 1` on a JavaScript number: NaN stays NaN, an integer goes up by one |
| JsString.TrimStart | js/auth.js:63 | the result is a suffix of the input; every character dropped is white space and the first one kept is not |
| JsString.TrimEnd | js/auth.js:63 | the result is a prefix of the input; every character dropped is white space and the last one kept is not |
| JsString.Trim | js/auth.js:63 | the trimmed address neither starts nor ends with white space and is no longer than the input |
| JsString.TrimIdempotent | js/auth.js:63 | trimming a trimmed string changes nothing |
| JsString.LowerChar | js/auth.js:63 | upper-case ASCII letters map to their lower-case letter; every other character is unchanged |
| JsString.Lower | js/auth.js:63 | lowercasing keeps the length and maps each character by `LowerChar` |
| JsString.TrimStartLower | js/auth.js:63 | lowercasing commutes with trimming at the start |
| JsString.TrimEndLower | js/auth.js:63 | lowercasing commutes with trimming at the end |
| JsString.LowerIdempotent | js/auth.js:63 | lowercasing twice is lowercasing once |
| JsString.DigitPrefix | js/auth.js:219 | the longest prefix of decimal digits: all digits, and the next character, if any, is not a digit |
| JsString.ParseInt | js/auth.js:219 | the empty string reads as NaN, and a string starting with a digit reads as a number |
| JsString.ParseIntNaN | js/auth.js:219 | `parseInt` yields NaN exactly when, after the leading white space and an optional sign, nothing is left or the next character is not a digit |
| JsString.ParseTrimmed | js/auth.js:219 | past the white space, the read is NaN exactly when no digit follows the optional sign |
| JsString.ParseIntSkipsSpace | js/auth.js:219 | leading white space does not change what `parseInt` reads |
| JsString.DigitPrefixStops | js/auth.js:219 | the digits `parseInt` takes from digits followed by a non-digit are exactly those digits |
| JsString.SignedDigits | js/auth.js:219 | after an optional `+` or `-` followed by a digit, nothing is trimmed and the sign comes off cleanly |
| JsString.ParseIntSigned | js/auth.js:219 | `parseInt` of an optional sign, digits and then a non-digit is the signed value of the digits |
| JsString.ParseIntDigits | js/auth.js:219 | `parseInt` of white space, an optional sign, digits and anything not starting with a digit is the signed value of those digits; the tail is ignored |
| JsString.NumToString | js/auth.js:223 | `String(n)` is non-empty, and starts with a minus sign or a digit exactly when `n` is not NaN |
| JsString.DigitChar | js/auth.js:223 | a digit value 0..9 is written as the digit character of that value |
| JsString.NatToString | js/auth.js:223 | `String(n)` of a non-negative number is a non-empty run of digits without a leading zero |
| JsString.IntToString | js/auth.js:223 | `String(i)` is non-empty and starts with a minus sign or a digit |
| JsString.DigitsRoundTrip | js/auth.js:219-223 | reading back the digits `String(n)` writes gives `n` |
| JsString.DigitPrefixOfDigits | js/auth.js:219 | on a string of digits the digit prefix is the whole string |
| JsString.IntRoundTrip | js/auth.js:219-223 | `parseInt(String(i), 10) == i` for every (unbounded) integer |
| JsString.ParseIntRoundTrip | js/auth.js:218-224 | what `incrementUsage` stores is non-empty and `getUsageCount` reads it back as the same number, NaN included |
| JsString.ParseZero | js/auth.js:219 | the default `'0'` of an absent counter reads as 0 |
| JsString.NatToStringInjective | js/auth.js:216 | different numbers are written differently |
| Auth.FirebaseErrorMessage | js/auth.js:258-268 | a known code gives its message, any other code the generic one; no other message is ever returned |
| Auth.ErrorMessage | js/auth.js:65-90 | each demo-mode failure message equals the message the provider path gives for the same failure |
| Auth.Normalise | js/auth.js:63 | the normalised address is no longer than the input |
| Auth.NormaliseCanonical | js/auth.js:63 | a normalised address is no longer than the input, holds no ASCII capital, and neither starts nor ends with white space |
| Auth.NormaliseIdempotent | js/auth.js:63 | a normalised address normalises to itself, so stored and looked-up addresses agree |
| Auth.LocalPart | js/auth.js:67 | `split('@')[0]` is the longest prefix without `@`, followed by `@` if anything is left |
| Auth.Sanitise | js/auth.js:215 | the sanitised id has the same length; lower-case letters and digits stay and every other character becomes `_` |
| Auth.StripNonAlnum | js/auth.js:91 | the demo uid contains exactly the lower-case letters and digits that occur in the address |
| Auth.StripCounts | js/auth.js:91 | each lower-case letter and digit is kept as many times as it occurs; every other character is dropped |
| Auth.StripAppend | js/auth.js:91 | stripping a concatenation is concatenating the stripped parts, so the kept characters keep their order |
| Auth.StripKeepsAlnum | js/auth.js:91 | a string of lower-case letters and digits is left as it is |
| Auth.PadStart2 | js/auth.js:216 | a month string shorter than two is left-padded with zeros to two characters; a longer one is unchanged |
| Auth.UsageKeyFor | js/auth.js:213-217 | a usage key never collides with the plan or ticket slots |
| Auth.MonthStamp | js/auth.js:216 | for a month 1..12 the stamp ends in `-` and the month's two padded digits |
| Auth.MonthDigitsInjective | js/auth.js:216 | the two padded digits of a month 1..12 determine the month |
| Auth.UsageKeyPerMonth | js/auth.js:213-217 | two different months (1..12) give the same user two different usage keys: the allowance resets each month |
| Auth.GetPlan | js/auth.js:193-206 | the plan is pro exactly when the slot holds the string `pro` or a record with a truthy `plan` member |
| Auth.SlotEmpty | js/auth.js:96 | an empty plan slot reads as the free plan |
| Auth.TicketLive | js/auth.js:186-190 | (also line 159) for a non-negative clock, a ticket is live exactly when the tool has one that expires later; the extra truthiness test changes nothing then |
| Auth.SetPlanDecodes | js/auth.js:203-209 | what `setPlan(p)` stores reads back as pro exactly when `p` is `pro` |
| Auth.RecordImpliesPro | js/auth.js:198-200 | a checkout record with a truthy `plan` member is pro even when that member says `free` |
| Auth.FindAccount | js/auth.js:64 | the index of the first account with that address, or none exactly when no account has it |
| JsString.TrimStartSpace | js/auth.js:63 | leading white space does not reach the trimmed address |
| JsString.TrimEndSpace | js/auth.js:63 | trailing white space does not reach the end-trimmed address |
| JsString.TrimSpaceAfter | js/auth.js:63 | trailing white space does not reach the trimmed address |
| Auth.NormaliseIgnoresSpace | js/auth.js:63 | white space before and after an address does not change its normal form |
| Auth.NormaliseLowersFirst | js/auth.js:63 | normalising is the same as lowercasing first and trimming afterwards |
| Auth.NormaliseIgnoresCase | js/auth.js:63 | addresses that differ only in ASCII letter case have the same normal form |
| Auth.FindIgnoresCaseAndSpace | js/auth.js:63-64 | an address typed with other ASCII letter case and surrounded by white space normalises to the address itself and finds the same account |
| Auth.TicketLifetime | js/auth.js:153-189 | a ticket minted at `t0` is valid at `t` exactly when `t < t0 + 24h`; minting it leaves other tools' tickets as they were |
| Auth.DistinctAppend | js/auth.js:64-68 | appending an account whose address is not found keeps the addresses distinct |
| Auth.DemoAccountsDistinct | js/auth.js:10-14 | the built-in demo accounts have distinct addresses |
| Auth.Entitlements.constructor | js/auth.js:10-30 | a page load starts with the demo accounts and no signed-in user; the stores keep what they held |
| Auth.Entitlements.Restore | js/auth.js:46-51 | the signed-in user becomes the session slot's user, which is also returned |
| Auth.Entitlements.SetPlan | js/auth.js:207-209 | the plan slot holds exactly the given string |
| Auth.Entitlements.IsPro | js/auth.js:210 | pro exactly when the plan slot decodes to pro |
| Auth.Entitlements.Register | js/auth.js:61-73 | a known normalised address fails as a duplicate and changes nothing; otherwise one free account is appended, the new user is signed in and stored in the session, and the plan is set to free; addresses stay distinct |
| Auth.Entitlements.Login | js/auth.js:85-98 | an unknown address fails as not found and a wrong password fails as such, both changing nothing; on success the user is signed in, and the plan becomes pro for a pro account and free when the slot was empty, and otherwise stays as it was |
| Auth.Entitlements.Logout | js/auth.js:109-116 | no user, no session, no plan, and a move to the login page |
| Auth.Entitlements.UsageId | js/auth.js:215 | the signed-in email, else the session email, else `anon`; never empty |
| Auth.Entitlements.UsageCount | js/auth.js:218-220 | an absent or empty counter reads as 0; otherwise the stored text read by `parseInt` |
| Auth.Entitlements.IncrementUsage | js/auth.js:221-225 | the count is one more than before and is stored under this month's key, nothing else changes, and the next read gives that count |
| Auth.Entitlements.RemainingUses | js/auth.js:226-229 | unbounded exactly for pro; otherwise `max(0, 3 - count)`, never negative, at most 3 for a non-negative count, NaN exactly when the count is NaN |
| Auth.Entitlements.CanUseService | js/auth.js:230-233 | allowed exactly for pro or a count below 3, which is exactly when some uses remain |
| Auth.Entitlements.UsageKey | js/auth.js:213-217 | the current user's usage key is neither the plan slot nor the ticket slot |
| Auth.Entitlements.RedirectEmail | js/auth.js:162 | the prefilled email is the signed-in user's, or empty without one |
| Auth.Entitlements.ClientReference | js/auth.js:163 | the client reference is never empty: the user's uid when there is one, else `anonymous` |
| Auth.Entitlements.HasValidTicket | js/auth.js:186-190 | always in demo mode; otherwise exactly while the tool's ticket has not expired |
| Auth.Entitlements.StartPayment | js/auth.js:149-167 | demo mode mints a 24-hour ticket and reloads; otherwise a live ticket means success with nothing changed, and no ticket means a payment redirect carrying the user's email and reference, with the tickets unchanged |
| Auth.Entitlements.HandlePaymentSuccess | js/auth.js:169-180 | a non-empty `paid` parameter mints that tool's 24-hour ticket and is removed; otherwise nothing changes |
| PlanGate.Gate | js/plan-gate.js:126-140 | a call passes exactly for pro or a count below 3; only a free pass counts one, and every other call leaves the count alone |
| PlanGate.BadgeRemaining | js/plan-gate.js:13-133 | the badge number is never negative, at most the limit for a non-negative count, and equals the limit minus the count while the count is within it |
| PlanGate.FreeOutcomes | js/plan-gate.js:126-140 | `n` consecutive free calls give `n` outcomes |
| PlanGate.FreeOutcomesFrom | js/plan-gate.js:126-140 | from a count `k <= 3`, exactly the first `3 - k` calls pass and every later one is refused |
| PlanGate.FreeMonth | js/plan-gate.js:126-140 | in a fresh month exactly the first three calls pass, then every call is refused |
| PlanGate.ProNeverCounts | js/plan-gate.js:127 | however many times a pro user passes, the counter never moves |
| PlanGate.FreeCountBounded | js/plan-gate.js:128-139 | a free user's count after `n` calls from `k <= 3` is `min(k + n, 3)`: it never exceeds the allowance |
| PlanGate.Page.constructor | js/plan-gate.js:71-86 | a page starts with no badge and no dialog |
| PlanGate.Page.InsertPlanBadge | js/plan-gate.js:71-86 | without a header nothing changes; otherwise a pro badge for pro users and the remaining uses for free users |
| PlanGate.Page.RedrawFreeBadge | js/plan-gate.js:130-135 | a drawn free badge shows `Math.max(0, 3 - count)`; with no free badge nothing changes |
| PlanGate.Page.CheckUsageGate | js/plan-gate.js:126-140 | the call matches `Gate`: for pro it passes and leaves storage and badge alone; a free pass stores the incremented count under this month's key and redraws a free badge with the runs left; a refusal changes no storage and opens the `limit` dialog |
| StringOrder.LessIrreflexive | scripts/fetch-market.js:125 | no date sorts before itself |
| StringOrder.LessAsymmetric | scripts/fetch-market.js:125 | two dates are never each before the other |
| StringOrder.LessTransitive | scripts/fetch-market.js:125 | the sort order is transitive |
| StringOrder.LessTotal | scripts/fetch-market.js:125 | any two different dates are ordered one way or the other |
| StringOrder.NotLessTransitive | scripts/fetch-market.js:125 | "not after" is transitive |
| StringOrder.Insert | scripts/fetch-market.js:125 | insertion adds exactly one occurrence of the element |
| StringOrder.InsertDistinct | scripts/fetch-market.js:125 | inserting a new element into a list without repeats repeats nothing |
| StringOrder.InsertSorted | scripts/fetch-market.js:125 | inserting into a sorted list keeps it sorted |
| StringOrder.Sort | scripts/fetch-market.js:125 | `sort()` returns a sorted permutation of its input |
| StringOrder.SortDistinct | scripts/fetch-market.js:125 | sorting distinct dates keeps them distinct |
| StringOrder.SortedDistinctAscending | scripts/fetch-market.js:125 | sorted distinct dates are strictly ascending |
| StringOrder.Last | scripts/fetch-market.js:125 | `slice(-n)` is the suffix of length `min(n, len)`, and the whole list for `n = 0` |
| StringOrder.LastGreatest | scripts/fetch-market.js:125 | on ascending dates `slice(-n)` stays ascending, keeps only input dates, and drops only dates earlier than every kept one |
| FetchMarket.Or | scripts/fetch-market.js:59 | `a \|\| b` is `a` when `a` is truthy and `b` otherwise; truthy exactly when one of them is |
| FetchMarket.Get | scripts/fetch-market.js:108 | a defined value comes from the key's entry |
| FetchMarket.Lookup | scripts/fetch-market.js:108 | `existing.currentValues?.[key]` is defined only when the object and the entry exist |
| FetchMarket.Close | scripts/fetch-market.js:64 | a close past the end of the array is missing |
| FetchMarket.HistoryUpTo | scripts/fetch-market.js:62-71 | the history has at most one point per timestamp seen |
| FetchMarket.KeptIndices | scripts/fetch-market.js:63-64 | the kept indices are ascending, in range, and exactly those below `n` where a close exists |
| FetchMarket.HistoryFollowsCloses | scripts/fetch-market.js:62-71 | the history has one point per present close, in timestamp order, dated by its timestamp and valued by that close |
| FetchMarket.QuoteOf | scripts/fetch-market.js:47-78 | no quote exactly when the request fails, there is no first result, or it has no meta; otherwise at most one history point per timestamp |
| FetchMarket.GetQuote | scripts/fetch-market.js:47-78 | the loop computes exactly `QuoteOf` of the response |
| FetchMarket.Baselines | scripts/fetch-market.js:91-93 | the previous snapshot's baselines if it has them, else the defaults |
| FetchMarket.BaseDate | scripts/fetch-market.js:144 | never empty; the previous base date when it is non-empty |
| FetchMarket.Resolve | scripts/fetch-market.js:99-111 | a fetched quote gives its value and history; otherwise no history and the previous value if truthy, else the baseline; the result is truthy exactly when one of the three is |
| FetchMarket.OverSnoc | scripts/fetch-market.js:99-112 | one more turn of the symbol loop records exactly that symbol's outcome |
| FetchMarket.Symbol | scripts/fetch-market.js:19-25 | every symbol is non-empty and already percent-encoded: only ASCII letters, digits and `%`, so it adds no `/`, `?` or `#` to the request URL |
| FetchMarket.SymbolsDistinct | scripts/fetch-market.js:19-25 | distinct keys request distinct quote symbols |
| FetchMarket.ResolveSymbols | scripts/fetch-market.js:99-112 | the loop's `results` and `history30d` are each symbol's `Resolve` outcome |
| FetchMarket.AddDate | scripts/fetch-market.js:124 | `Set.add` adds the date once, keeping insertion order and no repeats |
| FetchMarket.AddDates | scripts/fetch-market.js:124 | adding a history's dates adds exactly those dates without repeats |
| FetchMarket.Gathered | scripts/fetch-market.js:123-124 | `allDates` holds every history date exactly once |
| FetchMarket.CollectDates | scripts/fetch-market.js:123-124 | the nested loops compute exactly `Gathered` |
| FetchMarket.FindFirst | scripts/fetch-market.js:130 | `find` gives the first point on the date, or none exactly when no point has it |
| FetchMarket.Fill | scripts/fetch-market.js:130-131 | a cell is the value of the first point on that date, else the symbol's current result if truthy, and the baseline otherwise |
| FetchMarket.ValuesSnoc | scripts/fetch-market.js:129-132 | filling one more symbol sets exactly that symbol's cell |
| FetchMarket.MergeEntry | scripts/fetch-market.js:127-133 | the row loop builds exactly `EntryFor` the date |
| FetchMarket.Merge | scripts/fetch-market.js:127-134 | `sortedDates.map` builds exactly `MergedFor` the dates |
| FetchMarket.Run | scripts/fetch-market.js:88-152 | `main` from the previous snapshot to the output computes exactly `RunSpec` |
| FetchMarket.HistoryList | scripts/fetch-market.js:124 | one history per symbol key, in key order; a key without a history contributes none |
| FetchMarket.HistoryListDates | scripts/fetch-market.js:124 | a date is gathered exactly when some symbol key's history has a point on it |
| FetchMarket.KeptDates | scripts/fetch-market.js:125 | at most 30 dates are kept |
| FetchMarket.KeptDatesGreatest | scripts/fetch-market.js:123-125 | the kept dates are at most 30, ascending, and all history dates; a dropped date is earlier than every kept one; with fewer than 30 kept, none is dropped |
| FetchMarket.MergedRows | scripts/fetch-market.js:127-134 | one row per kept date, in order; each row has exactly the five symbols, filled by `Fill` |
| FetchMarket.MergedCellsDefined | scripts/fetch-market.js:127-134 | with every baseline truthy, every cell of every merged row holds a number |
| FetchMarket.DefaultBaseTruthy | scripts/fetch-market.js:91-93 | the five default baselines are all truthy |
| FetchMarket.UndefinedCell | scripts/fetch-market.js:130-131 | a symbol whose history has no point on the date (an empty fallback history included), with no truthy result and no baseline, gets an undefined cell |
| FetchMarket.RunCellsDefined | scripts/fetch-market.js:91-149 | with every baseline truthy, a run writes a number in every merged cell and a truthy current value for every symbol |
| FetchMarket.DefaultRunCellsDefined | scripts/fetch-market.js:88-149 | a run without stored baselines writes a number in every merged cell |
| FetchMarket.MergedDates | scripts/fetch-market.js:123-134 | the merged history holds the latest (at most) 30 history dates, in strictly ascending order, and every date when there are fewer |
| FetchMarket.RunCarriesBaselines | scripts/fetch-market.js:91-147 | a run writes the baselines it started from, so the next run starts from the same ones |
| FetchMarket.RunCurrentValues | scripts/fetch-market.js:99-148 | a run writes a current value for exactly the five symbols, each that symbol's outcome |
| FetchMarket.KeyIndependent | scripts/fetch-market.js:99-111 | a symbol's current value and history depend only on that symbol's response |
| FetchMarket.OrAbsorb | scripts/fetch-market.js:108 | `(a \|\| b) \|\| b` is `a \|\| b` |
| FetchMarket.OfflineRun | scripts/fetch-market.js:99-149 | when every request fails, the run keeps the previous values (the baselines where falsy) and writes no history |
| FetchMarket.OfflineSnapshotIdempotent | scripts/fetch-market.js:88-112 | the offline fallback applied to its own output changes nothing |
| FetchMarket.OfflineRunStable | scripts/fetch-market.js:88-149 | repeating an offline run on its own output gives the same snapshot |
| FetchMarket.OfflineHistoryEmpty | scripts/fetch-market.js:122-125 | when every request fails, no date is kept |

## Left out

- Firebase mode: every branch taken when `USE_DEMO` is false, apart from the ticket checks of `startPayment` and `hasValidTicket`, is not modelled. This covers `initFirebase`, the provider's sign-up, sign-in and sign-out, and `onAuthStateChanged`; they call a service whose code is not part of this model.
- `resetPassword`, `requireAuth`, `updateAuthUI`, `getRelativePath` and the `DOMContentLoaded` hook are page plumbing and are not modelled.
- The payment URL is not built. `StartPayment` records only the tool, the email and the client reference it would carry.
- `lockProFeatures`, `showLimitModal`'s markup, the CSS injection and the badge markup are presentation only. The model keeps the badge's number and the dialog's reason.
- Browser storage is one object, with the plan slot and the ticket slot decoded into their own fields. JSON encoding of the session and ticket slots is not modelled, nor the `try`/`catch` around storage access that falls back to empty values.
- Auth.Entitlements.HasValidTicket: tickets holding something other than a number are not modelled.
- Auth.FirebaseErrorMessage: codes that name a member inherited by every JavaScript object, such as `toString`, are not modelled.
- `Date.now()` and `new Date()` are parameters: `now` in milliseconds, and the calendar `YearMonth`.
- FetchMarket.GetQuote: the HTTPS request, the JSON parsing and the timeout are not modelled. A response is the `fetch` parameter's answer for a symbol, and anything that makes the request fail is `Failed`.
- FetchMarket.GetQuote: metadata that is missing makes the source throw and return null; the model returns no quote.
- FetchMarket.GetQuote: a timestamp's calendar day is the `day` parameter, which stands for `toISOString().slice(0, 10)`. A timestamp out of `Date`'s range, which throws there, is not modelled.
- FetchMarket.Chart: a missing `close` or `timestamp` array is modelled as empty, which is what `|| []` gives.
- Prices are integers counted in thousandths. The source's `Math.round(x * 1000) / 1000` is then the identity, and floating-point rounding is not modelled.
- The JGB 10Y block only logs and changes nothing, so it is left out.
- The MCI index, its weights, `fetchDate`, `fetchTime`, the console output and writing the file are not modelled.
- The previous snapshot's `history30d` is never read by the script, and the model does not read it either.
- StringOrder.Less compares code points, while `sort()` compares UTF-16 code units. The two orders agree on the ASCII date strings the script sorts.
- JsString.LowerChar: only the ASCII letters A-Z are lowered. JavaScript's `toLowerCase` also lowers other letters (`Ä` to `ä`), and some of them change the length (`İ` becomes two code points). Full Unicode case mapping is not modelled.
- JsString.Lower: inherits the ASCII-only mapping of `LowerChar`, and always keeps the length.
- Auth.Entitlements.Register: because of the ASCII-only lowercasing, registering `Ä@x.jp` after `ä@x.jp` succeeds in the model and creates a second account. The program reports the duplicate (js/auth.js:63-65). The same holds for every address that differs only in non-ASCII case. A `displayName` that is falsy but not the empty string (`undefined`) is treated as absent, the same as `""`.
- Auth.Entitlements.Login: because of the ASCII-only lowercasing, `Ä@x.jp` does not find the account `ä@x.jp` in the model, while the program finds it (js/auth.js:87-89).
- JsString.Succ: JavaScript numbers are doubles, and `count + 1` stops growing at 2^53. The model counts with unbounded integers. Such counts arise only from a slot edited by hand, because the gate stops counting at 3.
- JsString.NatToString: from 10^21 up, JavaScript's `String(n)` uses exponent notation (`1e+21`). The model always writes plain digits.
- JsString.IntToString: the same exponent-notation gap for large magnitudes.
- JsString.IntRoundTrip: in JavaScript the round trip holds only below 10^21, and exactly only below 2^53. The model proves it for every integer.
- JsString.ParseIntRoundTrip: the same double-precision limits apply to what `incrementUsage` stores.
- Auth.Entitlements.IncrementUsage: double-precision increment and exponent-form writing are not modelled, for the reasons above.
- Auth.Entitlements.IncrementUsage: the program computes the usage key twice, from two readings of the clock (js/auth.js:219 and :223). At a month rollover between them it reads the old month's counter and writes the new month's. The model uses one `YearMonth` for both.
- Auth.Sanitise: the regular expression has no `u` flag, so it replaces UTF-16 code units. A character outside the Basic Multilingual Plane (such as an emoji) becomes `__` in the program and `_` in the model, so usage keys, and which users share one, can differ for such addresses.
- Auth.Entitlements.SetPlan: every string is stored as non-JSON text. In the program, a string that is JSON text with a truthy `plan` member (`{"plan":"x"}`) reads back as pro. The program passes only `free` and `pro` (js/auth.js:71, 95, 96), which are not JSON objects.
- Auth.SetPlanDecodes: holds only for strings that are not JSON objects, for the same reason.
- FetchMarket.Snapshot: a previous snapshot file that holds JSON `null` makes `existing.baseValues` throw (scripts/fetch-market.js:89-91), and the run exits with an error. A `Snapshot` cannot represent that file.
