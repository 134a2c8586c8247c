# Telegram card-number generator bot: a Dafny model

The bot answers `/gen <bin>` with twenty made-up card numbers that start with a
given BIN (bank identification number). Each number passes the bot's own Luhn
check. The reply also lists the BIN's bank, country, scheme, type and level.
This project models the logic behind that reply and proves properties of it:

- `luhnCheck` (module `Luhn`): the reducer exactly as JavaScript parses it. Its
  exact difference from the ISO/IEC 7812-1 Luhn check is proved. Concrete
  numbers show each direction of that difference.
- `generateValidCard` (module `CardGen`): the rejection-sampling loop, as a
  `method` with loop invariants. Alongside it are the formatting of
  `number|MM|20YY|cvv` and its shape.
- `getBinInfo` and `binDatabase` (module `BinLookup`): the local table, the
  remote fallback with its per-field defaults, and the failure record.
- `createCCMessage` (module `CCMessage`): the Markdown reply and its send options.
- The `/gen` handler (module `GenCommand`): argument sanitisation, the six-digit
  gate, the batch of twenty cards, and the lookup under the first eight digits.
- Module `Text` holds the JavaScript string and number built-ins these use:
  `String(n)`, `padStart`, `substring`, `slice(-k)`, `split`, `join`, `trim`,
  `replace(/\D/g, '')` and `toUpperCase`.

The inputs that JavaScript takes from its environment become parameters:

- `Math.random()`: a `CardDraw` per card, holding the drawn suffixes, month
  index, year offset and CVV.
- `new Date().getFullYear()`: `currentYear`.
- The HTTP lookup: a `Remote` value, either `RequestFailed` or
  `Responded(BinResponse)`, where each field may be missing.

`luhnCheck` differs from the standard Luhn check in two ways, both proved in
`Luhn.FoldDecomposition`:

- `acc + ((val * 2) % 9) || 9` turns a running sum of 0 into 9. The running sum
  is positive once a digit has been folded, so this fires only at index 0. It
  fires there when that digit is 0 or 9. Only the 0 changes the sum: it counts
  as 9, where a doubled 9 counts as 9 anyway.
- `(9 * 2) % 9` is 0 where Luhn counts 9, at every later doubled position.

The generated numbers are therefore valid for `luhnCheck`, and that is what the
model states about them. They are not always valid for the standard check
(`Luhn.DoubledNineRejected`, `Luhn.NeverBothWhenCorrected`).

## Model

| member | source | states |
|---|---|---|
| Luhn.ReversedDigits | index.js:49 | the digits of the string, right to left: same length, each element is the digit value at the mirrored position |
| Luhn.Step | index.js:52 | one reducer step: an odd index adds the digit; an even index adds the doubled digit reduced modulo 9, which is Luhn's doubling except that 9 gives 0, and a resulting sum of 0 becomes 9; the sum never decreases |
| Luhn.Fold | index.js:51-52 | the reduced sum is at least 1 once one digit is folded, and at most 9 per digit |
| Luhn.LuhnCheck | index.js:48-54 | `luhnCheck` accepts no empty string (the shifted-off digit is missing and the sum is NaN) |
| Luhn.FoldDecomposition | index.js:51-52 | the reducer's sum equals the standard Luhn sum with doubling, plus 9 when the first reduced digit is 0, minus 9 for each later doubled 9; the sum is positive once one digit is folded, so the fallback to 9 can fire only at index 0 |
| Luhn.FoldPlusCheckDigit | index.js:50-53 | the reducer's sum plus the shifted-off last digit is the corrected Luhn sum of the whole number |
| Luhn.LuhnCheckCharacterisation | index.js:48-54 | `luhnCheck` accepts exactly the non-empty digit strings whose corrected Luhn sum is a multiple of 10 (the empty string gives NaN and is rejected) |
| Luhn.AgreesWithLuhn | index.js:48-54 | where the two corrections cancel modulo 10, `luhnCheck` accepts exactly what the ISO/IEC 7812-1 Luhn check accepts |
| Luhn.NeverBothWhenCorrected | index.js:48-54 | where the corrections do not cancel modulo 10, no number passes both `luhnCheck` and the standard check |
| Luhn.ZeroZeroRejected | index.js:52 | "00" passes the standard check and fails `luhnCheck`, because the fallback to 9 counts the 0 as 9 |
| Luhn.ZeroOneAccepted | index.js:52 | "01" passes `luhnCheck` and fails the standard check |
| Luhn.DoubledNineRejected | index.js:52 | "9019" passes the standard check and fails `luhnCheck`, because a doubled 9 counts 0 |
| Luhn.UniqueCheckDigit | index.js:50-53 | for any digit body, exactly one final digit (`CheckDigit(body)`) makes `luhnCheck` accept |
| Luhn.KnownValidNumber | index.js:48-54 | 4539148803436467 is accepted, and 4539148803436468 is rejected |
| CardGen.Suffix | index.js:60 | the padded random suffix is all digits |
| CardGen.SuffixIsTenDigits | index.js:60 | a suffix draw below 10^10 renders as exactly ten digits: the number, zero-padded on the left |
| CardGen.CardNumber | index.js:60-61 | the candidate card number is all digits |
| CardGen.CardNumberShape | index.js:60-61 | the candidate has 16 digits once the BIN has 6 or more; it starts with a BIN of at most 16 digits; it is the BIN's first 16 digits for a longer BIN |
| CardGen.FirstPassing | index.js:59-62 | from a given start, the index of the first suffix draw whose number passes `luhnCheck`; none from the start on passes before it; if there is no index, none from the start on passes at all |
| CardGen.MonthField | index.js:64 | the month field is all digits, at least two of them |
| CardGen.YearField | index.js:65-68 | the year field is "20" and one or two more digits; exactly two once the year has two digits |
| CardGen.CvvField | index.js:66 | the CVV field is a non-empty run of digits |
| CardGen.FormatCard | index.js:68 | the formatted card starts with the card number, and its length is the four fields' lengths plus three separators |
| CardGen.GeneratedCard | index.js:57-69 | `generateValidCard` yields a card exactly when some suffix draw gives a number that passes `luhnCheck` |
| CardGen.GenerateValidCard | index.js:57-69 | the loop yields a card exactly when some draw passes `luhnCheck`; the card is the number, month, year and CVV of the first passing draw, joined by bars |
| CardGen.SomeDrawPasses | index.js:59-62 | for a BIN of at most 15 digits, some suffix draw in range passes `luhnCheck`, so the loop can end |
| CardGen.LongBinNeverPasses | index.js:60-62 | for a BIN of 16 or more digits whose first 16 fail `luhnCheck`, no draw ends the loop |
| CardGen.MonthFieldShape | index.js:64 | the month is two digits holding 01..12 |
| CardGen.YearFieldShape | index.js:65-68 | the year field is "20" followed by the expiry year modulo 100, as two digits |
| CardGen.YearFieldWrapsAfter2099 | index.js:65-68 | the expiry year 2101 is written "2001" |
| CardGen.CvvFieldShape | index.js:66 | the CVV is three digits holding the drawn value |
| CardGen.CardFields | index.js:68 | the formatted card splits on the bar character into exactly its four fields, in order |
| CardGen.PassingCardShape | index.js:57-69 | a card from a passing draw has four fields: a number that passes `luhnCheck`, has 16 digits for a BIN of 6 or more digits and starts with a BIN of at most 16; a month 01..12; "20" and the expiry year's last two digits; a three-digit CVV holding the drawn value |
| CardGen.PassingDraw | index.js:59-68 | every card `generateValidCard` returns is the formatted form of an in-range suffix draw whose number passes `luhnCheck`, with the drawn month, year and CVV |
| CardGen.GeneratedCardShape | index.js:57-69 | every card `generateValidCard` returns for in-range draws has that four-field shape, for the draws' month, year and CVV |
| BinLookup.GetBinInfo | index.js:117-145 | a table hit returns the table record whatever the remote says; a miss with a failed request returns the fallback record; any miss has level "N/A"; every field except the emoji is non-empty |
| BinLookup.OrDefault | index.js:127-129 | the `or` fallback on a reply field: a present non-empty value is kept; otherwise the default; the result is empty only when the default is |
| BinLookup.UpperOrDefault | index.js:130-131 | the upper-casing `or` fallback on a reply field: a present non-empty value is upper-cased; otherwise the default |
| BinLookup.FromResponse | index.js:125-133 | the record built from a reply has level "N/A", no empty field except the emoji, and each of bank, country and emoji is the reply's value or its default |
| BinLookup.RemoteFieldsDefaulted | index.js:126-133 | on a miss with a reply, each field is the reply's non-empty value, upper-cased for scheme and type, or its default |
| BinLookup.RemoteSchemeUpperCase | index.js:130 | the scheme from a remote reply has no lower-case ASCII letter |
| BinLookup.EmptyResponseIsFallback | index.js:126-143 | a reply whose fields are all missing or empty gives the same record as a failed request |
| BinLookup.TableHitIgnoresRemote | index.js:119-121 | a table hit does not depend on the remote outcome |
| BinLookup.TableKeysAreSixDigits | index.js:19-45 | every table key is six digits |
| CCMessage.Header | index.js:74-75 | the header is the lead text, then the BIN, then the fixed tail |
| CCMessage.CardList | index.js:76 | the card list is empty exactly when there are no cards, and otherwise starts with a backtick |
| CCMessage.Footer | index.js:77-81 | the footer ends with the card level |
| CCMessage.BacktickedAll | index.js:76 | each card is wrapped in backticks, one for one, in order |
| CCMessage.CreateCCMessage | index.js:83-89 | the message is sent with Markdown parsing and link previews off |
| CCMessage.MessageStartsWithBin | index.js:74 | the text opens with the header naming the BIN |
| CCMessage.MessageEndsWithLevel | index.js:81 | the text closes with the card level |
| CCMessage.MessageListsCards | index.js:75-77 | between header and footer, splitting on newlines gives back the backticked cards, in order |
| GenCommand.MatchesBinPattern | index.js:104 | `/^\d{6,}$/` holds exactly for six or more characters that the digit filter leaves unchanged |
| GenCommand.LookupKey | index.js:110 | the lookup key is the BIN's first eight characters, or the whole BIN when it is shorter |
| GenCommand.SanitizeBin | index.js:102 | the sanitised argument is all digits |
| GenCommand.SanitizedBin | index.js:102-104 | the sanitised BIN is exactly the argument's digits in order, and it passes `/^\d{6,}$/` exactly when there are six or more |
| GenCommand.GenerateBatch | index.js:109 | the batch is complete exactly when every card's draws contain a passing one; then card i is what `generateValidCard` yields for draw i |
| GenCommand.HandleGen | index.js:100-114 | warns exactly when fewer than six digits remain; otherwise either sends 20 cards, each generated from the sanitised BIN and each of the card shape (from year 10 on), with the message built from the lookup under the first eight digits, or is still looping because some card's draws ran out |
| GenCommand.LongBinMissesTable | index.js:110-121 | a BIN of seven or more digits is looked up under a key of seven or eight digits, which misses the six-digit table, so its metadata comes from the remote service or the fallback |
| GenCommand.ExampleBinUsesTable | index.js:102-121 | `/gen 515462` gets the table record for 515462, whatever the remote service would say |
| GenCommand.SentCardsHaveCardShape | index.js:109 | every card of a complete batch has the card shape for its own draw: a passing number, 16 digits long for a BIN of six or more and starting with the BIN, then the drawn month, year and CVV |
| Text.Trim | index.js:102 | `trim()` gives a string no longer than its argument that neither starts nor ends with whitespace |
| Text.TrimCutsOnlyWhitespace | index.js:102 | `trim()` keeps a contiguous piece of its argument, and everything it cuts before and after that piece is whitespace |
| Text.KeepDigits | index.js:102 | `replace(/\D/g, '')` leaves only digits, is no longer than its argument, and leaves a string unchanged exactly when it is all digits |
| Text.KeepDigitsCounts | index.js:102 | the digit filter keeps every occurrence of every digit and drops every other character |
| Text.KeepDigitsConcat | index.js:102 | the digits of a concatenation are the digits of its first part followed by those of its second, so the kept digits stay in order |

## Left out

- Telegram transport is not modelled. That covers polling, `bot.onText`
  dispatch, `sendMessage` and the `/start` reply. The `/gen` handler returns
  the reply it would send.
- The HTTP request to the remote BIN service is not modelled. Its outcome is
  an input, and `console.error` is dropped.
- The keep-alive HTTP server, `dotenv` and the bot token are not modelled.
  They are configuration and I/O.
- `Math.random()` and `new Date()` are inputs to the model (`CardDraw`,
  `currentYear`). The ranges the source's expressions give them are stated by
  `ValidDraw`.
- CardGen.GenerateValidCard: the source loops without bound until a number
  passes. The model runs over a finite sequence of draws and returns `None`
  when it runs out. Non-termination for BINs of 16 or more digits is stated
  only as "no draw passes" (`LongBinNeverPasses`).
- GenCommand.HandleGen: when some card's draws run out the model returns
  `NoReply`. This is an artifact of the finite draws: the source keeps drawing,
  and for a BIN of at most 15 digits a passing draw exists
  (`CardGen.SomeDrawPasses`).
- The `await` on `getBinInfo` and any interleaving of concurrent `/gen`
  requests are not modelled.
- Luhn.LuhnCheck: only digit strings are modelled, because its only caller
  builds the number from the sanitised BIN (index.js:102) and a digit suffix.
  On other input `parseInt` gives NaN. NaN is falsy, so at an even index
  `|| 9` turns a NaN running sum into 9, and some non-digit strings pass:
  `luhnCheck("a1")` is true. None of this is modelled.
- BinLookup.GetBinInfo: `binDatabase[bin]` is read as a map lookup.
  Inherited object keys such as `constructor` are not modelled, and neither
  can arise from a digit key.
- BinLookup.UpperOrDefault: `toUpperCase` is modelled for ASCII letters only.
  Other characters are kept unchanged.
- BinLookup.FromResponse: JSON fields are strings or missing. A field holding
  a non-string value, such as a number or an object, is not modelled.
- Emoji and Markdown markup in the message are opaque characters. Telegram's
  rendering of them is not modelled.
