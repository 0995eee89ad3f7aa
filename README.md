# 금복 (geumbok): a Dafny model of the app's decision logic

금복 is a React Native companion app for older users. It has a voice-driven
expense ledger, a list of welfare services and a chat screen. This project
models the parts of the app that decide something, and proves what they
promise:

- **Voice interpreter** (`services/voiceService.js`):
  - `parseVoiceCommand` turns a recognised text into a command. The amount pattern
    `/(.+?)(\d+)원/` comes first, then five keyword rules in a fixed order.
  - `parseCategory` is the first-match keyword table behind an expense's category.
  - `generateResponse` gives each command its canned reply.
- **API helpers** (`services/api.js`):
  - `handleAPIError`, the status-code chain that picks an error message.
  - The offline fall-backs of the welfare search and of the lookup by id, over the
    four built-in dummy services.
- **Expense ledger** (`app/screens/ConsumptionScreen.js`):
  - The screen's state (the item list, the add form, the modal flag) as a class.
  - The total and per-category sums over the list.
  - The validated add, which prepends one item and resets the form.
- **Login form** (`app/login.js`): `handleInputChange` and the ordered checks of
  `validateForm`.
- **Welfare search box** (`app/screens/WelfareScreen.js`): the `filteredServices`
  substring filter.
- **Home screen** (`index.js`): the keyword router `handleVoiceCommand` and the
  unread-notification badge.
- **Voice button** (`components/VoiceButton.js`): the reply chosen by
  `speakResponse` for the first recognition alternative.
- **Chat screen** (`app/screens/ChatbotScreen.js`): the message list, the input box
  and the listening flag, as a class.

Modules:

- `Wrappers`: `Option`.
- `JsStrings`: the JavaScript string built-ins the code relies on: `includes`, `trim`,
  `toLowerCase`, `length` in UTF-16 code units, and decimal digits.
- `Seqs`: `filter` and `find` over lists.
- One module per source file: `VoiceService`, `Api`, `Consumption`, `Login`,
  `WelfareScreen`, `Home`, `VoiceButton` and `Chatbot`.
- `VoiceDemo`: states and proves the interpreter's result on the demonstration
  utterances of `components/VoiceDemo.js`.

How the source's semantics are represented:

- **JavaScript's `parseInt`** becomes `Consumption.ParseInt`. It skips leading white
  space, accepts a sign and a `0x` prefix, and returns `NaN` when there are no
  digits. A `NaN` amount makes every sum it enters `NaN`, as in JavaScript.
- **The regular expression** is modelled in full, line terminators included.
  `VoiceService.FindMatch` returns the leftmost match, with the shortest
  description. `FindMatchCorrect` proves this against a declarative statement of
  what matching means.
- **Ids, dates and times.** Ids from `Date.now()` and today's date are parameters of
  the operations that need them.
- **Alerts.** An alert the source shows becomes a value that the operation returns.
- **Timer callbacks.** A callback started with `setTimeout` becomes its own method.
  The environment calls it later.

Where the comments in the source and its behaviour differ, the model follows the
code. The expense rule's description is only guaranteed to be non-empty before
trimming. `" 5000원"` records the empty description
(`VoiceDemo.BlankDescriptionExample`). The regex also gives the description at
least one character, so in `"5000원"` the description takes the first digit: the
command records the description `"5"` and the amount 0
(`VoiceDemo.LeadingAmountSplit`). In the same way, the round trip
`VoiceService.ExpenseRoundTrip` requires that the description does not end in a
digit.

## Model

| member | source | states |
|---|---|---|
| VoiceService.ParseCategory | services/voiceService.js:220-238 | the result is `기타` iff no row's keyword occurs in the description; otherwise it is the category of the first row, in table order, with a hit |
| VoiceService.LabelInjective | services/voiceService.js:221-237 | equal labels mean equal categories, so the result is one of eight distinct labels |
| VoiceService.DigitRunEnd | services/voiceService.js:150 | `\d+` runs to the end of the maximal digit run: everything before it is a digit and the character at it is not |
| VoiceService.DigitRunEndUnique | services/voiceService.js:150 | a position with those two properties is the run end |
| VoiceService.FindMatchCorrect | services/voiceService.js:150 | the match found is the one the regex engine reports: a match, with the least start and then the least digit position; no match is found iff none exists |
| VoiceService.SingleLineMatch | services/voiceService.js:150-152 | on single-line text, a match exists iff some k ≥ 1 holds a digit whose maximal run is followed by `원`; the description starts at 0 and ends at the least such k |
| VoiceService.ParseVoiceCommand | services/voiceService.js:143-190 | only an expense carries data, and the command is an expense iff the amount pattern matches |
| VoiceService.KeywordPrecedence | services/voiceService.js:162-189 | without an amount, the five keyword rules decide in their fixed order and the first hit wins; the data is `null` |
| VoiceService.ExpenseRoundTrip | services/voiceService.js:150-160 | for description + digits + `원` + tail, with the description on one line, holding no amount and not ending in a digit: the expense with the trimmed description, the value of the digits and the category of the untrimmed description |
| VoiceService.BuiltMatch | services/voiceService.js:150 | in such a text the match starts at 0, the digits start right after the description, and the run ends where the digits do |
| VoiceService.NoDigitNoMatch | services/voiceService.js:150-151 | a text without digits holds no amount |
| VoiceService.UnknownIff | services/voiceService.js:144-189 | `unknown` with `null` data iff there is no amount and none of the ten keywords |
| VoiceService.EmptyIsUnknown | services/voiceService.js:144-189 | the empty text is `unknown` |
| VoiceService.NoInitialIsOther | services/voiceService.js:231-237 | a description that holds no first character of any keyword is `기타` |
| VoiceService.GenerateResponse | services/voiceService.js:193-215 | an expense reply begins with the description, the amount and `원`, and contains the category label followed by `항목으로 등록되었습니다.`; every other kind gets its fixed reply |
| VoiceService.FixedRepliesDistinct | services/voiceService.js:198-214 | the six fixed replies are different, so a reply identifies the kind |
| VoiceService.EveryParseIsAnswered | services/voiceService.js:143-216 | every parsed command can be answered, and an `unknown` one gets the "didn't understand" reply |
| VoiceDemo.CoffeeExample | components/VoiceDemo.js:22 | `'커피 5000원 샀어'` is the expense (`커피`, 5000, `식료품`) |
| VoiceDemo.LunchExample | components/VoiceDemo.js:23 | `'점심 12000원 지출'` is the expense (`점심`, 12000, `기타`) although it contains `지출` |
| VoiceDemo.BusCardExample | components/VoiceDemo.js:24 | `'버스카드 충전 10000원'` is an expense under `교통비` |
| VoiceDemo.HospitalExample | components/VoiceDemo.js:26 | `'병원비 15000원 결제'` is an expense under `의료비` |
| VoiceDemo.LeadingAmountSplit | services/voiceService.js:150-157 | `"5000원"` gives the description `"5"` and the amount 0 |
| VoiceDemo.BlankDescriptionExample | services/voiceService.js:150-157 | `" 5000원"` gives the empty description and the amount 5000 |
| VoiceDemo.LedgerExample | components/VoiceDemo.js:32 | `'가계부 보여줘'` is `view_expenses` |
| VoiceDemo.WelfareExample | components/VoiceDemo.js:34 | `'복지서비스 알려줘'` is `view_welfare` |
| VoiceDemo.GreetingExample | components/VoiceDemo.js:41 | `'금복아 안녕'` is `greeting` |
| VoiceDemo.MarketCategory | services/voiceService.js:222 | `"마트에서 장보기"` is `식료품` |
| VoiceDemo.AnythingCategory | services/voiceService.js:237 | `"아무거나"` is `기타` |
| VoiceDemo.ExpenseUtterance | services/voiceService.js:150-160 | a plain description, a digit run, `원` and a tail make the expense with the given trimmed description, value and category |
| VoiceDemo.KeywordUtterance | services/voiceService.js:162-189 | a text without digits gets the kind of its keyword rules and `null` data |
| VoiceDemo.LunchRoutedToLedger | index.js:86-87 | `'점심 12000원 지출'` opens the ledger, while the interpreter reads an expense |
| VoiceDemo.ChatBeforeGreeting | components/VoiceButton.js:80-83 | `'금복아 안녕'` gets the chat-start reply, while `generateResponse` greets |
| Api.HandleApiError | services/api.js:365-391 | the message is one of the fixed messages or the caller's message, or else the server's non-empty message |
| Api.StatusMessages | services/api.js:368-381 | 401, 403, 404 and ≥ 500 give their fixed messages, whatever the server said |
| Api.OtherStatusMessage | services/api.js:370-383 | any other status gives the server's non-empty message, and otherwise the caller's message |
| Api.NoResponseMessage | services/api.js:365-390 | no response but a request gives the network message; neither gives the caller's message, by default `'오류가 발생했습니다.'` |
| Api.ServerMessageShownIff | services/api.js:368-383 | the server's message is shown iff it is non-empty and the status has no fixed message |
| Api.CustomOrDefault | services/api.js:365 | the caller's message, or `'오류가 발생했습니다.'` when it is left out |
| Api.MessageOr | services/api.js:371 | `message \|\| fallback`: a non-empty message wins, and otherwise the fallback |
| Api.DummyIdsDistinct | services/api.js:257-312 | the four dummy services have pairwise distinct serviceIds |
| Api.SearchIn | services/api.js:167-181 | success, a single page of ten holding the number kept, and exactly the services whose lower-cased title or description contains the lower-cased keyword, each as many times as it is listed |
| Api.SearchKeepsOrder | services/api.js:168-171 | the services a search returns appear in the same order as in the list searched |
| Api.SearchOfflineSpec | services/api.js:167-181 | the offline search keeps exactly the matching dummy services in their order, and the total equals the number kept |
| Api.SearchIgnoresKeywordCase | services/api.js:169-170 | lower-casing the keyword first changes nothing |
| Api.EmptyKeywordKeepsAll | services/api.js:168-171 | the empty keyword keeps every service |
| Api.LookupIn | services/api.js:148-153 | `success` iff some service has the id iff `data` is present; the data is such a service |
| Api.LookupInverse | services/api.js:149 | with distinct ids, looking up a service's id returns that service |
| Api.FindByIdSpec | services/api.js:148-153 | looking up a dummy service's id finds it; an id no dummy service has gives `success` false and `null` |
| Consumption.ParseIntDecimal | app/screens/ConsumptionScreen.js:134 | `parseInt` of a run of digits followed by a non-digit is the decimal value of the digits, provided the run is not a lone `0` followed by `x` or `X` |
| Consumption.ParseIntOfNatToString | app/screens/ConsumptionScreen.js:134 | `parseInt` reads back any number's decimal text |
| Consumption.ParseIntNegative | app/screens/ConsumptionScreen.js:134 | a leading `-` negates the value |
| Consumption.ParseIntSkipsWhiteSpace | app/screens/ConsumptionScreen.js:134 | leading white space is skipped |
| Consumption.ParseIntNaN | app/screens/ConsumptionScreen.js:134 | a text with no digit, sign or prefix after its white space is `NaN` |
| Consumption.ParseIntHexadecimal | app/screens/ConsumptionScreen.js:134 | `"0x1A"` reads as 26 |
| Consumption.Plus | app/screens/ConsumptionScreen.js:113 | `+` on numbers: `NaN` iff either side is `NaN`, and the sum otherwise |
| Consumption.CategoriesDistinct | app/screens/ConsumptionScreen.js:32-39 | six categories with distinct ids and distinct labels |
| Consumption.ItemOf | app/screens/ConsumptionScreen.js:130-136 | the new item copies date, category and description from the form, and its amount is `parseInt` of the form's amount |
| Consumption.Total | app/screens/ConsumptionScreen.js:112-114 | the sum is `NaN` iff some amount is `NaN`, and 0 for the empty list |
| Consumption.TotalPrepend | app/screens/ConsumptionScreen.js:112-114 | prepending an item adds its amount to the total |
| Consumption.CategoryTotal | app/screens/ConsumptionScreen.js:116-120 | the sum is 0 when no item has the category |
| Consumption.CategoryTotalPrepend | app/screens/ConsumptionScreen.js:116-120 | prepending an item adds its amount to its own category's sum and leaves every other category's sum alone |
| Consumption.CategoryTotalsAddUp | app/screens/ConsumptionScreen.js:112-120 | when each item is filed under one of a list of distinct labels, the per-category sums over those labels add up to the total |
| Consumption.ZeroCategories | app/screens/ConsumptionScreen.js:116-120 | with no items, every category sum is 0 |
| Consumption.SampleTotal | app/screens/ConsumptionScreen.js:62-98 | the sample list totals 55250, and each sample item is filed under a table label |
| Consumption.ConsumptionScreen.constructor | app/screens/ConsumptionScreen.js:19-29 | an empty list, an empty form dated today, and the modal closed |
| Consumption.ConsumptionScreen.LoadSampleData | app/screens/ConsumptionScreen.js:100-103 | the list becomes the sample list; the form and the modal are unchanged |
| Consumption.ConsumptionScreen.SetShowAddModal | app/screens/ConsumptionScreen.js:253 | only the modal flag changes |
| Consumption.ConsumptionScreen.SelectCategory | app/screens/ConsumptionScreen.js:169 | only the form's category changes, to a table label |
| Consumption.ConsumptionScreen.SetAmount | app/screens/ConsumptionScreen.js:308 | only the form's amount text changes |
| Consumption.ConsumptionScreen.SetDescription | app/screens/ConsumptionScreen.js:316 | only the form's description changes |
| Consumption.ConsumptionScreen.SetDate | app/screens/ConsumptionScreen.js:324 | only the form's date changes |
| Consumption.ConsumptionScreen.HandleAddConsumption | app/screens/ConsumptionScreen.js:122-146 | with an empty category, amount or description, nothing changes. Otherwise one item is prepended and the old items follow in order; the total grows by `parseInt` of the amount, as does that category's sum, and the other sums stay the same; the modal closes and the form resets. Every item stays filed under a table label |
| Consumption.ConsumptionScreen.CategoryAmountsAddUp | app/screens/ConsumptionScreen.js:112-120 | the screen's per-category sums add up to its total |
| Login.HandleInputChange | app/login.js:31-33 | the named field takes the value and every other field keeps its own |
| Login.ChangeToSameValue | app/login.js:31-33 | writing a field's own value back leaves the form as it was |
| Login.LaterChangeWins | app/login.js:31-33 | of two changes to one field, the later wins |
| Login.ChangesCommute | app/login.js:31-33 | changes to different fields commute |
| Login.ValidateForm | app/login.js:35-57 | accepted iff the email and password are non-empty and, at sign-up, the name is non-empty, the confirmation equals the password and the password has at least 6 UTF-16 units; a reported failure is a check that fails |
| Login.AcceptedIffNoCheckFails | app/login.js:35-57 | accepted iff none of the four checks fails |
| Login.FirstFailureReported | app/login.js:36-53 | the failure reported is the failing check that comes first in the order email/password, name, match, length |
| Login.MissingCredentialsRefused | app/login.js:36-39 | an empty email or password is refused in both modes |
| Login.LoginNeedsOnlyCredentials | app/login.js:36-56 | logging in is accepted iff the email and password are non-empty |
| Login.LoginIgnoresSignUpFields | app/login.js:31-41 | editing the name or the confirmation does not change whether a login is accepted |
| Login.InitialFormRefused | app/login.js:24-39 | the initial form is refused for missing credentials |
| Login.ShortPasswordExample | app/login.js:50-53 | a five-character sign-up password is refused as too short |
| Login.SignUpPasswordRule | app/login.js:50-56 | once the earlier sign-up checks pass, a password of Basic Multilingual Plane characters (Hangul, ASCII) is refused as too short iff it has fewer than six characters, and accepted iff it has six or more |
| Login.MessagesDistinct | app/login.js:37-51 | the four alerts are different texts |
| WelfareScreen.FilteredServices | app/screens/WelfareScreen.js:75-79 | a service is shown iff it is in the list and its title, description or category contains the query, as many times as it is listed; no more services than loaded |
| WelfareScreen.FilteredIsSubsequence | app/screens/WelfareScreen.js:75 | the shown list is a subsequence of the loaded one |
| WelfareScreen.EmptyQueryKeepsAll | app/screens/WelfareScreen.js:75-79 | the empty query, set by the clear button, shows everything |
| WelfareScreen.FilterTwice | app/screens/WelfareScreen.js:75-79 | filtering again with the same query changes nothing |
| WelfareScreen.UnmatchedQueryShowsNothing | app/screens/WelfareScreen.js:75-79 | a query whose first character is in none of the searched texts shows nothing |
| WelfareScreen.PensionSearchExample | app/screens/WelfareScreen.js:28-79 | searching the samples for `기초연금` shows the pension alone, although the job scheme names it in its eligibility, which is not searched |
| Home.HandleVoiceCommand | index.js:83-95 | no navigation iff the text contains none of the six routing keywords |
| Home.RouteOrder | index.js:86-91 | 가계부/지출 opens `/expenses` and is tested first; otherwise 복지/혜택 opens `/welfare`; otherwise 금복/대화 opens `/chatbot` |
| Home.PathsDistinct | index.js:87-91 | the three routes have different paths |
| Home.RouterAgreesWithInterpreter | index.js:86-89 | on a text without an amount, the router opens the ledger iff the interpreter says `view_expenses`, and the welfare list iff it says `view_welfare` |
| Home.RouterIgnoresAmounts | index.js:86-87 | a text mentioning the ledger opens it even when the interpreter reads it as an expense |
| Home.StatsNotRouted | index.js:86-92 | `'통계 보여줘'` is routed nowhere, while the interpreter reads `view_stats` |
| Home.ShowBadge | index.js:131 | the badge shows iff some notification is unread |
| Home.SampleShowsBadge | index.js:58-66 | the sample dashboard shows the badge |
| VoiceButton.SpeakResponse | components/VoiceButton.js:73-84 | the default reply iff the text has none of the seven keywords |
| VoiceButton.ReplyAnnouncesRoute | components/VoiceButton.js:76-81 | the ledger, welfare and chat replies are given exactly when the home router opens the ledger, the welfare list and the chat; with no route the reply is the greeting or the default |
| VoiceButton.AgreesWithInterpreter | components/VoiceButton.js:76-79 | for ledger and welfare texts without an amount, the reply equals `generateResponse` of the interpreter's reading |
| VoiceButton.RepliesDistinct | components/VoiceButton.js:74-83 | the five replies are different texts |
| VoiceButton.RecognizedText | components/VoiceButton.js:62 | the handled text is the first recognition alternative |
| VoiceButton.OnSpeechResults | components/VoiceButton.js:60-71 | a reply is spoken iff there is an alternative |
| VoiceButton.FirstAlternativeDecides | components/VoiceButton.js:62-71 | the reply depends on the first alternative alone |
| Chatbot.ChatbotScreen.constructor | app/screens/ChatbotScreen.js:18-31 | exactly one non-user greeting message, an empty input, not listening |
| Chatbot.ChatbotScreen.SetInputText | app/screens/ChatbotScreen.js:103 | only the input text changes |
| Chatbot.ChatbotScreen.SendMessage | app/screens/ChatbotScreen.js:34-47 | blank input changes nothing. Otherwise exactly one user message with the untrimmed text is appended after the unchanged earlier messages, and the input is cleared |
| Chatbot.ChatbotScreen.ReceiveBotReply | app/screens/ChatbotScreen.js:49-57 | exactly one non-user message with the fixed "in development" text is appended |
| Chatbot.ChatbotScreen.ToggleListening | app/screens/ChatbotScreen.js:61-70 | the flag flips, and the dictation timer starts iff listening was off |
| Chatbot.ChatbotScreen.FinishListening | app/screens/ChatbotScreen.js:66-69 | listening stops and the dictated text fills the input |
| Chatbot.AppendKeepsConversation | app/screens/ChatbotScreen.js:45-57 | appending keeps the earlier messages and keeps the list a conversation: it opens with the greeting and has no blank user message |
| Chatbot.DictatedTextSendable | app/screens/ChatbotScreen.js:35-68 | the dictated text is not blank, so sending it goes through |
| JsStrings.ContainsIff | services/voiceService.js:163 | `includes` holds iff the word occurs at some position |
| JsStrings.TrimSpec | services/voiceService.js:155 | `trim` returns a slice whose removed ends are white space |
| JsStrings.TrimEmptyIff | app/screens/ChatbotScreen.js:35 | `trim` gives the empty string iff the text is all white space |
| JsStrings.TrimIdempotent | services/voiceService.js:155 | trimming twice is trimming once |
| JsStrings.ToLower | services/api.js:169-170 | lowering keeps the length and lowers each character on its own |
| JsStrings.ToLowerIdempotent | services/api.js:169-170 | lowering twice is lowering once |
| JsStrings.Utf16Length | app/login.js:50 | the length in UTF-16 units is between the number of characters and twice it; it equals the number of characters iff every character is in the Basic Multilingual Plane, and twice it iff none is |
| JsStrings.DecimalValueOfNatToString | services/voiceService.js:156 | the decimal value of a number's digits is the number |
| Seqs.Filter | app/screens/WelfareScreen.js:75 | exactly the passing elements, each as many times as in the input, in order: kept elements pass, and each element that passes keeps its multiplicity while each that fails has none |
| Seqs.FilterIsSubsequence | app/screens/WelfareScreen.js:75 | filtering keeps the order |
| Seqs.FilterIdempotent | app/screens/WelfareScreen.js:75 | filtering twice is filtering once |
| Seqs.Find | services/api.js:149 | nothing is found iff no element passes; otherwise the first element that passes is found |

## Left out

- Speech. The recognisers and speech synthesis are left out (`services/voiceService.js:5-131`, `components/VoiceButton.js`, except the reply choice and the chosen alternative). So is the random, timer-driven simulated recogniser. They are devices, timers and randomness.
- Networking and storage. The axios client and its interceptors are not modelled, and neither are the endpoint wrappers other than the two offline fall-backs, or AsyncStorage and the user context. They are foreign calls.
- `getDummyStatistics`: its adjustments are floating-point multiplications.
- Dates and clocks. Date ranges, `toISOString` and `Date.now()` ids are not modelled. Ids and "today" are parameters.
- Asynchronous flows: `handleSubmit`, `handleDemoLogin`, the home screen's listening toggle, and the loading and error states of every screen.
- Rendering: styles, navigation, icons and colour tables, and list slicing for display.
- Consumption.ParseInt: stops being exact beyond 2^53, and does not produce `-0`, because JavaScript numbers are doubles and amounts here are unbounded integers. `Total` and `CategoryTotal` share this limit.
- VoiceService.ParseVoiceCommand: the amount is the exact value of the digit run. `parseInt` in the source returns a double, which is no longer exact beyond 2^53 and becomes `Infinity` beyond about 309 digits; the model does not capture either.
- VoiceService.GenerateResponse: renders the amount as its full decimal digits. The template string in the source switches to exponent notation (such as `1e+21`) from 10^21 on, and shows `Infinity` for an overflowed amount; the model does not capture either.
- JsStrings.ToLower: lowers ASCII letters only. Full Unicode case mapping is not modelled. Hangul has no case, so this changes nothing for Korean text.
- JsStrings.Utf16Length: treats each character above U+FFFF as two code units and does not model lone surrogates.
- Chatbot.ChatbotScreen.constructor: models the screen after its mount effect has run. Before that, the list is briefly empty.
- Login.ValidateForm: the alert becomes the error kind it returns, and the alert's title is not modelled.
- VoiceButton.OnSpeechResults: when the recogniser delivers no alternative, the source would fail on `undefined`; the model says no reply is spoken.
- Consumption.ConsumptionScreen.HandleAddConsumption: the `'모든 항목을 입력해주세요.'` alert becomes the `false` result.
- The notification screen, the profile screen and the tab layouts are not part of this model.
