# Voice accounting system: a Dafny model of its rule engines

The voice accounting system is a browser and Node.js application for small Indian businesses. It keeps sales, expenses and invoices, works out Goods and Services Tax (GST), reads invoices by OCR, and takes spoken commands in Indian languages. This project models its deterministic core in Dafny and proves properties of that model. One module stands for each JavaScript file:

- `GstCalculator` (`gst-calculator.js`): one-amount GST with its CGST/SGST or IGST components, the reverse calculation, multi-item invoices, category rates, GSTIN validation, quarterly netting, the rate-bucket summary and the GSTR-1 split.
- `LanguageTranslator` (`language-translator.js`): the `Translator` object with its current language, supported languages and translation tables; the lookup chain, `{{param}}` substitution, reverse phrase lookup, voice-command phrases, imports, and the language metadata lookups.
- `NumberWords` (`language-translator.js`): the Indian-grouping speller (crore, lakh, thousand, hundred) behind the five `numberTo*Words` methods. It is one loop-based speller over a per-language vocabulary.
- `OcrProcessor`, `OcrPostProcess` and `OcrReport` (`ocr-processor.js`):
  - `OcrProcessor`: amount and date parsing, business-name and invoice-number cleaning, GST-slab snapping, the work on a line item's matched groups and the line-item section scan.
  - `OcrPostProcess`: `postProcessExtractedData`, a shallow copy that writes through to the party objects.
  - `OcrReport`: the data-quality score, the validation verdict, the CSV writer and `exportData`.
- `TranscriptPatterns` and `PhraseTable`: the four regular expressions the voice front ends use, written out as leftmost greedy matchers, and the first-phrase search over an ordered command table.
- `VoiceCommands` (`voice-commands.js`): the `VoiceCommandProcessor` class with its recogniser and listening flag, command identification, the split of speech results into final and interim text, and the actions commands start.
- `ClientScript` (`script.js`): the page's command table, the amount and invoice-number extractors, `formatTime`, the search, the GST calculator dialog, and the `state` object's theme, language and voice flag.
- `VoiceServer` (`server.js`): `processVoiceCommand`, the pattern lookup.
- `AccountingApp` (`app.js`): the `VoiceAccountingApp` configuration: merge on load, language cycling, language change, theme toggle and the quick-action dispatch.
- `JsString` and `Maybe`: the JavaScript built-ins the core relies on, written out, and the `Option`/`Result` types.
  - The built-ins are `trim`, ASCII `toLowerCase`, `includes`, `indexOf`, the first-occurrence `replace` with its `$` patterns, `parseFloat` and number-to-string.

Modelling conventions:

- Money is a Dafny `real`, so all arithmetic is exact. JavaScript `null` and `undefined` are `None`.
- Truthiness is written out wherever the source relies on `||` or `if (x)`. A falsy rate, for example, becomes 18.
- JavaScript objects whose key order matters are sequences of pairs. This covers the translation tables, the command tables and the rate buckets.
- Objects that the source updates in place are classes with `modifies` clauses:
  - the translator;
  - the extracted invoice and its parties;
  - the voice processor and its recogniser;
  - the page `state`;
  - the application configuration.
- Loops in the source are loops in the model, proved against specification functions.
- The clock, the locale's date text, the browser's speech-recognition support and the `Date` step of `postProcessExtractedData` are parameters.
- Wherever the source divides, a zero divisor is an explicit `None` result (standing for `NaN`) or a stated precondition.

## Model

| member | source | states |
|---|---|---|
| GstCalculator.ParseGstRate | voice-accounting-system/gst-calculator.js:74-81 | the rate a caller passes as a number; with the three lemmas after it: a number is kept, a missing rate is 18, a text loses its first "%" and parses, and one that does not parse gives 18 |
| GstCalculator.ParseGstRateNonText | voice-accounting-system/gst-calculator.js:80 | a number is kept as it is and a rate that is neither text nor number is 18 |
| GstCalculator.ParseGstRatePercentText | voice-accounting-system/gst-calculator.js:74-79 | a rate written as a whole number followed by "%" parses to that number |
| GstCalculator.ParseGstRateFallback | voice-accounting-system/gst-calculator.js:74-80 | a text that does not begin with a number falls back to the 18% rate |
| GstCalculator.MethodRatesTotal18 | voice-accounting-system/gst-calculator.js:5-21 | the component rates of both calculation methods (9 + 9 and 18) add up to 18, whatever rate is asked for |
| GstCalculator.SplitComponents | voice-accounting-system/gst-calculator.js:50-57 | one output component per method component, in order, each keeping its name and fixed rate and carrying `gst * componentRate / rate`, or NaN when the rate is 0 |
| GstCalculator.Calculate | voice-accounting-system/gst-calculator.js:35-72 | a non-positive amount and an unknown method are the two errors; otherwise the total is `amount * (100 + rate) / 100`, total minus tax is the amount, and the breakdown repeats amount, tax and total |
| GstCalculator.CalculateAt | voice-accounting-system/gst-calculator.js:35-72 | once the rate is a number: success exactly for a positive amount and a known method, with the same total, breakdown and components as `calculate` states |
| GstCalculator.SplitComponentsSum | voice-accounting-system/gst-calculator.js:50-57 | the components add up to the tax shared in proportion to the sum of the component rates |
| GstCalculator.CalculateComponentsSum | voice-accounting-system/gst-calculator.js:47-57 | the components of a calculation add up to `gstAmount * 18 / rate`, so they equal the tax exactly when the rate is 18 |
| GstCalculator.CalculateZeroRateComponents | voice-accounting-system/gst-calculator.js:51 | at a 0% rate every component amount is NaN, because the source divides by the rate |
| GstCalculator.CalculateExample | voice-accounting-system/gst-calculator.js:35-72 | 10000 at 18% intra-state gives 1800 tax as 900 CGST plus 900 SGST and an 11800 total |
| GstCalculator.ReverseCalculate | voice-accounting-system/gst-calculator.js:83-89 | the reversed calculation, when it succeeds, ends at exactly the total it was given; it fails exactly when the recovered base is not positive |
| GstCalculator.ReverseOfCalculate | voice-accounting-system/gst-calculator.js:83-89 | reversing the total of a calculation gives back that same calculation, so the original amount is recovered |
| GstCalculator.ItemsComponents | voice-accounting-system/gst-calculator.js:115-122 | the multi-item components divide the total tax by 18, whatever the items' rates |
| GstCalculator.CalculateForItems | voice-accounting-system/gst-calculator.js:91-138 | only an unknown method fails; the item details are the per-item details in input order, each with its own rate (a falsy rate counts as 18), tax and total; subtotal, tax and total are the sums; the average rate is undefined for a zero subtotal |
| GstCalculator.DetailsInOrder | voice-accounting-system/gst-calculator.js:96-110 | the item details have one entry per input item, at the same position |
| GstCalculator.ItemsComponentsSum | voice-accounting-system/gst-calculator.js:115-122 | the multi-item components add up to the total tax times the sum of the component rates over 18 |
| GstCalculator.ItemsComponentsAddUp | voice-accounting-system/gst-calculator.js:115-122 | because the fixed component rates add up to 18, the multi-item components add up to the total tax exactly |
| GstCalculator.UniformRateGst | voice-accounting-system/gst-calculator.js:96-102 | when every item has the same effective rate, the total tax is that rate of the subtotal |
| GstCalculator.UniformRateAverage | voice-accounting-system/gst-calculator.js:135 | with a uniform rate and a non-zero subtotal, the reported average rate is that rate |
| GstCalculator.CategoryRate | voice-accounting-system/gst-calculator.js:140-152 | the category rate is always 5, 18 or 28: 5 exactly for clothing, 28 exactly for luxury, in any letter case; food, books and unknown categories fall through to 18 |
| GstCalculator.MatchesAnchoredIff | voice-accounting-system/gst-calculator.js:156-157 | an anchored fixed-width match means equal length and every character in its position's class |
| GstCalculator.ValidateGstin | voice-accounting-system/gst-calculator.js:154-158 | a valid GSTIN is 15 characters long; ValidateGstinLayout states the layout character by character |
| GstCalculator.ValidateGstinLayout | voice-accounting-system/gst-calculator.js:154-158 | a GSTIN is valid exactly when it has 15 characters: 2 digits, 5 capitals, 4 digits, a capital, a digit 1-9 or capital, a literal 'Z' and a digit or capital |
| GstCalculator.ValidGstinExample | voice-accounting-system/gst-calculator.js:154-158 | "27AAAAA0000A1Z5" validates |
| GstCalculator.InvalidGstinExamples | voice-accounting-system/gst-calculator.js:154-158 | the lower-case form of a valid GSTIN and a short word are rejected |
| GstCalculator.FindBucket | voice-accounting-system/gst-calculator.js:200 | the bucket lookup returns a position holding the key, or none exactly when no bucket has the key |
| GstCalculator.Tally | voice-accounting-system/gst-calculator.js:199-209 | a new key gets a zero bucket appended, then the key's bucket counts one more transaction and adds its amount and tax |
| GstCalculator.SummarizeTransactions | voice-accounting-system/gst-calculator.js:189-219 | the loop's totals, buckets and guarded average are those of the transaction list as a whole |
| GstCalculator.SummaryStep | voice-accounting-system/gst-calculator.js:194-210 | one more transaction adds its amount and tax (missing values count 0) to the totals and its key to the buckets |
| GstCalculator.SumsAfterUpdate | voice-accounting-system/gst-calculator.js:207-209 | updating one bucket changes each column's sum by exactly the change at that bucket |
| GstCalculator.AddToBucketsSums | voice-accounting-system/gst-calculator.js:199-209 | one transaction adds 1 to the bucket counts and its amount and tax to the bucket sums |
| GstCalculator.BucketsAccountForAll | voice-accounting-system/gst-calculator.js:189-219 | the bucket counts add up to the number of transactions and the bucket amounts and taxes to the totals |
| GstCalculator.BucketsByKey | voice-accounting-system/gst-calculator.js:199-209 | bucket keys are distinct, there is a bucket exactly for each key that occurs, and each bucket counts the transactions with its key |
| GstCalculator.SummaryAverageGuard | voice-accounting-system/gst-calculator.js:212-218 | with no positive total the average rate is 0, and the total with tax is the amount plus the tax |
| GstCalculator.Netting | voice-accounting-system/gst-calculator.js:165-180 | liability and credit are never negative, at most one of them is non-zero, liability minus credit is output tax minus input tax, and the payable amount is the liability |
| GstCalculator.NettingExample | voice-accounting-system/gst-calculator.js:165-180 | 18000 output tax against 9000 input tax leaves 9000 payable and no credit |
| GstCalculator.CalculateQuarterlyReturn | voice-accounting-system/gst-calculator.js:160-186 | the three summaries are those of the three lists, output tax is the sales tax, input tax is purchases plus expenses, and the document counts are the list lengths |
| GstCalculator.GenerateGstr1Data | voice-accounting-system/gst-calculator.js:221-262 | b2b holds, in order, the invoices whose GSTIN is present and valid, b2cs all the others, exports stays empty, and the summary totals are the sums of subtotal and of tax (missing tax counts 0) |
| GstCalculator.CategoriesPartition | voice-accounting-system/gst-calculator.js:251-255 | every invoice lands in exactly one of b2b and b2cs, so their lengths add up to the number of invoices |
| GstCalculator.CategoryMembership | voice-accounting-system/gst-calculator.js:251-255 | an invoice with a valid GSTIN is listed under b2b and any other under b2cs |
| LanguageTranslator.Lookup | voice-accounting-system/language-translator.js:814-815 | a key has a value exactly when the table has an entry with that key |
| LanguageTranslator.LookupDistinct | voice-accounting-system/language-translator.js:814-815 | in a table without repeated keys, looking up an entry's key gives that entry's value |
| LanguageTranslator.Replace | voice-accounting-system/language-translator.js:1486-1489 | re-assigning an existing key keeps the table's keys and their order |
| LanguageTranslator.ReplaceLookup | voice-accounting-system/language-translator.js:1486-1489 | after re-assigning a key, that key reads the new value and every other key its old one |
| LanguageTranslator.AssignLookup | voice-accounting-system/language-translator.js:1486-1489 | an assignment is seen by a lookup of its key and by no other |
| LanguageTranslator.AssignKeepsKeys | voice-accounting-system/language-translator.js:1486-1489 | an assignment keeps every existing key in its place; a new key goes last |
| LanguageTranslator.OverrideLookup | voice-accounting-system/language-translator.js:1486-1489 | in `{...english, ...given}` a given key takes the given value and any other key keeps the English one |
| LanguageTranslator.OverrideKeepsOrder | voice-accounting-system/language-translator.js:1486-1489 | the merged table starts with the English keys in their order |
| LanguageTranslator.ImportDefinesEnglishKeys | voice-accounting-system/language-translator.js:1481-1493 | an imported language defines every English key, with the given value where one was supplied |
| LanguageTranslator.Entry | voice-accounting-system/language-translator.js:814-827 | an entry counts only when the language's table exists and holds a non-empty value for the key |
| LanguageTranslator.PlaceholderStartsWithBraces | voice-accounting-system/language-translator.js:820 | a text containing a `{{name}}` placeholder contains `{{` |
| LanguageTranslator.SubstituteWithoutPlaceholders | voice-accounting-system/language-translator.js:819-833 | a text without placeholders comes back unchanged, whatever the parameters |
| LanguageTranslator.SubstituteOne | voice-accounting-system/language-translator.js:820 | one parameter whose value has no `$` replaces the first occurrence of its placeholder and leaves the rest of the text as it was; without an occurrence the text is unchanged |
| LanguageTranslator.SubstituteFirstOccurrenceOnly | voice-accounting-system/language-translator.js:820 | "{{n}} of {{n}}" with n = 5 becomes "5 of {{n}}": a second occurrence is left in place |
| LanguageTranslator.ApplyParams | voice-accounting-system/language-translator.js:819-821 | the loop over the parameters replaces each one's first placeholder in turn |
| LanguageTranslator.FirstWithValue | voice-accounting-system/language-translator.js:893-898 | the search stops at the first English entry whose value is the text, or finds none exactly when no entry has it |
| LanguageTranslator.KnownPhraseToEnglish | voice-accounting-system/language-translator.js:888-906 | with distinct English keys, translating a known phrase into English gives the phrase back, and an unknown text is returned as it was |
| LanguageTranslator.FirstIncluded | voice-accounting-system/language-translator.js:1066-1070 | the first command key, in table order, that occurs in the text, or none exactly when no key occurs |
| LanguageTranslator.FindCommand | voice-accounting-system/language-translator.js:1066-1070 | the loop finds the first command key that occurs in the lower-cased, trimmed command |
| LanguageTranslator.VoicePhrases | voice-accounting-system/language-translator.js:1018-1061 | every command of the table has a phrase for each of the five voice languages, English first and equal to the key |
| LanguageTranslator.LookupOnlyFirst | voice-accounting-system/language-translator.js:1068 | a key carried only by the first entry looks up to that entry's value |
| LanguageTranslator.EnglishPhraseIsKey | voice-accounting-system/language-translator.js:1018-1068 | the English phrase of every command is the command's key |
| LanguageTranslator.VoiceCommandInEnglish | voice-accounting-system/language-translator.js:1063-1072 | in English a recognised command comes back as its table key, whatever else was said |
| LanguageTranslator.VoiceCommandFallsBackToEnglish | voice-accounting-system/language-translator.js:1068 | a language without phrases of its own gets the English phrase |
| LanguageTranslator.VoiceCommandUnmatched | voice-accounting-system/language-translator.js:1072 | an utterance mentioning no command key is returned unchanged, in every language |
| LanguageTranslator.LanguageName | voice-accounting-system/language-translator.js:796-810 | a built-in code has its own native name, different from the code; any other code is its own name |
| LanguageTranslator.SpeechLangCode | voice-accounting-system/language-translator.js:1561-1576 | a built-in language gets its Indian regional tag `<code>-IN`, any other `en-IN` |
| LanguageTranslator.BuiltInLanguagesAreLeftToRight | voice-accounting-system/language-translator.js:1586-1590 | no built-in language is written right to left |
| LanguageTranslator.Translator.IsRtl | voice-accounting-system/language-translator.js:1586-1590 | right to left exactly when the given code, or the current language when none is given, is one of ar, he, fa and ur |
| LanguageTranslator.AssignTables | voice-accounting-system/language-translator.js:1508 | `Object.assign` leaves exactly the old codes and the parsed ones |
| LanguageTranslator.AddLanguagesFacts | voice-accounting-system/language-translator.js:1511-1515 | the old list is kept as a prefix, every parsed code ends up listed, nothing else is added, and a list without repeats stays without repeats |
| LanguageTranslator.Translator.constructor | voice-accounting-system/language-translator.js:7-29 | the built-in list, and the saved preference when it is a supported code, English otherwise |
| LanguageTranslator.Translator.SetLanguage | voice-accounting-system/language-translator.js:766-783 | true and the language set exactly when the code is supported; otherwise false and nothing changes |
| LanguageTranslator.Translator.Translate | voice-accounting-system/language-translator.js:812-840 | the current language's non-empty entry, else the English one, each with its placeholders filled in, else the key itself |
| LanguageTranslator.Translator.IsKnownPhrase | voice-accounting-system/language-translator.js:881-886 | true exactly when some English entry has the text as its value |
| LanguageTranslator.Translator.TranslateKnownPhrase | voice-accounting-system/language-translator.js:888-906 | the loop finds the first English key with the text as value and returns the target language's non-empty entry for it, else the text |
| LanguageTranslator.Translator.TranslateVoiceCommand | voice-accounting-system/language-translator.js:1017-1073 | the current language's phrase of the first command that occurs, falling back to English, else the command unchanged |
| LanguageTranslator.Translator.TranslateNumberToWords | voice-accounting-system/language-translator.js:1075-1089 | hi, ta, te and bn use their own speller and every other language the English one; the language defaults to the current one |
| LanguageTranslator.Translator.NumberToEnglishWords | voice-accounting-system/language-translator.js:1091-1142 | the English words of the number, as `NumberWords.Words` defines them |
| LanguageTranslator.Translator.NumberToHindiWords | voice-accounting-system/language-translator.js:1144-1193 | the Hindi words of the number |
| LanguageTranslator.Translator.NumberToTamilWords | voice-accounting-system/language-translator.js:1195-1253 | the Tamil words of the number |
| LanguageTranslator.Translator.NumberToTeluguWords | voice-accounting-system/language-translator.js:1255-1313 | the Telugu words of the number |
| LanguageTranslator.Translator.NumberToBengaliWords | voice-accounting-system/language-translator.js:1315-1373 | the Bengali words of the number |
| LanguageTranslator.Translator.ImportTranslations | voice-accounting-system/language-translator.js:1481-1493 | the code is appended only when absent, and its table becomes English overridden by the given entries |
| LanguageTranslator.Translator.LoadCustomTranslations | voice-accounting-system/language-translator.js:1503-1520 | the parsed tables are assigned over the old ones and every new code is appended once |
| NumberWords.TokensReadBack | voice-accounting-system/language-translator.js:1101-1139 | the crore / lakh / thousand / hundred decomposition reads back as the number itself, for every speller's form, with every digit in range |
| NumberWords.TokensWithoutAnd | voice-accounting-system/language-translator.js:1178-1190 | a speller without "and" produces the same decomposition with every "and" removed |
| NumberWords.TokensLow | voice-accounting-system/language-translator.js:1113-1139 | the last three digits are spelt by the hundreds part, after everything above them |
| NumberWords.RoundHundreds | voice-accounting-system/language-translator.js:1101-1123 | dropping the last two digits leaves the words of every larger group and of the hundreds digit |
| NumberWords.AndBeforeTens | voice-accounting-system/language-translator.js:1126-1127 | "and" comes right before a non-zero last two digits above 100 exactly in the form that uses it |
| NumberWords.TokensBelowHundred | voice-accounting-system/language-translator.js:1126-1139 | below 100 nothing precedes the last two digits, so no "and" is written |
| NumberWords.BareHundredForOne | voice-accounting-system/language-translator.js:1221-1229 | Tamil, Telugu and Bengali write a hundreds digit of 1 as their bare hundred word |
| NumberWords.CountedHasNoBareHundred | voice-accounting-system/language-translator.js:1119-1123 | English and Hindi count their hundreds recursively and never write a bare or suffixed hundred word |
| NumberWords.SpellOut | voice-accounting-system/language-translator.js:1091-1142 | the speller's result is exactly the words of the number: the zero word for 0, the empty string for a negative number, and the decomposition's words otherwise |
| NumberWords.SpellLakhs | voice-accounting-system/language-translator.js:1107-1111 | once below a crore, the rest of the speller still ends with the words of the whole number |
| NumberWords.SpellThousands | voice-accounting-system/language-translator.js:1113-1117 | once below a lakh, the rest of the speller still ends with the words of the whole number |
| NumberWords.SpellHundreds | voice-accounting-system/language-translator.js:1119-1141 | once below a thousand, the hundreds, the last two digits and the final trim end with the words of the whole number |
| NumberWords.HundredsWords | voice-accounting-system/language-translator.js:1221-1229 | the non-recursive hundreds words of Tamil, Telugu and Bengali followed by one blank |
| NumberWords.TensWords | voice-accounting-system/language-translator.js:1126-1139 | "and " when the form uses it and words precede, then the words of the last two digits |
| NumberWords.DigitsWords | voice-accounting-system/language-translator.js:1129-1138 | the ones, teens or tens word, and the ones word after a blank when the ones digit is not zero |
| NumberWords.EnglishWellFormed | voice-accounting-system/language-translator.js:1092-1095 | every English word the speller can emit is non-empty and free of white space |
| NumberWords.HindiWellFormed | voice-accounting-system/language-translator.js:1145-1148 | every Hindi word the speller can emit is non-empty and free of white space |
| NumberWords.TamilWellFormed | voice-accounting-system/language-translator.js:1195-1253 | every Tamil word the speller can emit is non-empty and free of white space |
| NumberWords.TeluguWellFormed | voice-accounting-system/language-translator.js:1255-1313 | every Telugu word the speller can emit is non-empty and free of white space |
| NumberWords.BengaliWellFormed | voice-accounting-system/language-translator.js:1315-1373 | every Bengali word the speller can emit is non-empty and free of white space |
| NumberWords.WordsTrimmed | voice-accounting-system/language-translator.js:1141 | the words of a positive number have no leading, trailing or doubled blank, so the closing `trim` removes nothing more |
| NumberWords.WordsBeforeTens | voice-accounting-system/language-translator.js:1119-1139 | a number whose last two digits are not zero is spelt as its round hundreds, then " and " in English or a blank elsewhere, then the last two digits |
| NumberWords.HindiIsEnglishWithoutAnd | voice-accounting-system/language-translator.js:1144-1193 | Hindi spells exactly the English decomposition with each "and" removed |
| NumberWords.EnglishZero | voice-accounting-system/language-translator.js:1097 | 0 is "zero" |
| NumberWords.EnglishHundredAndFive | voice-accounting-system/language-translator.js:1119-1139 | 105 is "one hundred and five" |
| NumberWords.EnglishFive | voice-accounting-system/language-translator.js:1126-1130 | 5 is "five", with no "and" |
| NumberWords.EnglishOneHundred | voice-accounting-system/language-translator.js:1119-1141 | 100 is "one hundred", with no trailing blank |
| NumberWords.BareHundredWord | voice-accounting-system/language-translator.js:1221-1229 | in Tamil, Telugu and Bengali a hundreds digit of 1 puts the bare hundred word among the words |
| OcrProcessor.ParseAmount | voice-accounting-system/ocr-processor.js:513-522 | a missing or empty amount text gives null; otherwise `parseFloat` of the text without currency marks, null when it does not parse (StripCurrencyDigits, AmountOfDigits and AmountOfWord state the cases) |
| OcrProcessor.StripCurrency | voice-accounting-system/ocr-processor.js:517 | no rupee sign, dollar sign or comma is left |
| OcrProcessor.StripCurrencyDigits | voice-accounting-system/ocr-processor.js:517 | text of digits, currency signs and commas is stripped to its digits, which are not empty when there was a digit |
| OcrProcessor.AmountOfDigits | voice-accounting-system/ocr-processor.js:513-522 | an amount written with digits, currency signs and thousands separators reads as the value of its digits |
| OcrProcessor.AmountOfWord | voice-accounting-system/ocr-processor.js:513-522 | text that starts with a letter is not a number, so the amount is null |
| OcrProcessor.Greedy | voice-accounting-system/ocr-processor.js:476-478 | a `\d{lo,hi}` group takes a digit run whose length is within the bounds |
| OcrProcessor.MatchAt | voice-accounting-system/ocr-processor.js:476-478 | a match at a position has three digit groups separated by `/` or `-` whose lengths fit the format |
| OcrProcessor.Search | voice-accounting-system/ocr-processor.js:482 | the leftmost match of a format has the same shape |
| OcrProcessor.ParseDate | voice-accounting-system/ocr-processor.js:474-510 | the loop returns the fields of the first format, in source order, that matches |
| OcrProcessor.DigitsValueBound | voice-accounting-system/ocr-processor.js:486-499 | a run of n digits is worth less than 10^n |
| OcrProcessor.NoMatchByLastGroup | voice-accounting-system/ocr-processor.js:476-478 | a format cannot match when no run of its last group's least length follows a separator |
| OcrProcessor.NoMatchByFirstGroup | voice-accounting-system/ocr-processor.js:478 | a fixed-length first group cannot match when no such digit run is followed by a separator |
| OcrProcessor.DayFirstMatch | voice-accounting-system/ocr-processor.js:476-477 | a day-first format matches DD/MM/YYYY-shaped text at its start, with the three groups in place |
| OcrProcessor.DayFirstDate | voice-accounting-system/ocr-processor.js:476-499 | DD/MM/YYYY is read day-month-year, the month counted from 0 |
| OcrProcessor.ShortYearNoLongMatch | voice-accounting-system/ocr-processor.js:476 | in DD/MM/YY no four digits follow a separator, so the first format fails |
| OcrProcessor.TwoDigitYearDate | voice-accounting-system/ocr-processor.js:477-499 | DD/MM/YY is read with the year moved into the 2000s |
| OcrProcessor.YearFirstNoLongMatch | voice-accounting-system/ocr-processor.js:476 | in YYYY-MM-DD no four digits follow a separator either |
| OcrProcessor.YearFirstNoEarlyShortMatch | voice-accounting-system/ocr-processor.js:477 | the DD/MM/YY format finds nothing at the first two positions of YYYY-MM-DD |
| OcrProcessor.YearFirstLateShortMatch | voice-accounting-system/ocr-processor.js:477 | the DD/MM/YY format matches YYYY-MM-DD at its third position, taking the year's last two digits as the day |
| OcrProcessor.YearFirstMisread | voice-accounting-system/ocr-processor.js:474-510 | YYYY-MM-DD is read as day = last two digits of the year, month = MM - 1, year = 2000 + DD |
| OcrProcessor.IsoDateShape | voice-accounting-system/ocr-processor.js:478 | "2024-01-15" is year-first text with groups 24, 1 and 15 at the misread positions |
| OcrProcessor.IsoDateMisread | voice-accounting-system/ocr-processor.js:474-510 | "2024-01-15" is read as 24 January 2015 |
| OcrProcessor.FixedYearFirstDate | voice-accounting-system/ocr-processor.js:478-490 | with the year-first format tried first, YYYY-MM-DD is read year-month-day |
| OcrProcessor.DayFirstNoYearFirstMatch | voice-accounting-system/ocr-processor.js:478 | in DD/MM/YYYY no four digits are followed by a separator, so the year-first format fails |
| OcrProcessor.FixedDayFirstDate | voice-accounting-system/ocr-processor.js:476-499 | the corrected order reads DD/MM/YYYY exactly as the source does |
| OcrProcessor.KeepNameChars | voice-accounting-system/ocr-processor.js:465 | only letters, digits, white space, `&`, `.`, `,` and `-` are kept |
| OcrProcessor.CollapseSpacesShape | voice-accounting-system/ocr-processor.js:466 | after collapsing, every white-space character is a single plain space, and a text not starting with white space keeps its first character |
| OcrProcessor.CollapseSpacesChars | voice-accounting-system/ocr-processor.js:466 | collapsing adds no character outside the kept class |
| OcrProcessor.CapitalizeAll | voice-accounting-system/ocr-processor.js:469 | each word is capitalised, in order |
| OcrProcessor.SplitPlainWords | voice-accounting-system/ocr-processor.js:468 | splitting a trimmed, single-spaced text on blanks gives non-empty words without white space |
| OcrProcessor.TrimmedCollapsed | voice-accounting-system/ocr-processor.js:465-467 | what `trim` leaves of the filtered, collapsed text is empty or single-spaced without blanks at the ends |
| OcrProcessor.CapitalizedWordsClean | voice-accounting-system/ocr-processor.js:469-470 | capitalising plain words and joining them with blanks gives a cleaned name |
| OcrProcessor.CleanBusinessName | voice-accounting-system/ocr-processor.js:463-471 | the pipeline of removal, collapsing, trimming, splitting, capitalising and joining; CleanBusinessNameIsClean and CleanBusinessNameIdempotent state what its result is |
| OcrProcessor.CleanBusinessNameIsClean | voice-accounting-system/ocr-processor.js:463-471 | the cleaned name has only kept characters, no leading, trailing or double space, and every word capitalised first and lower-case after |
| OcrProcessor.CleanNameSpacing | voice-accounting-system/ocr-processor.js:463-471 | a non-empty cleaned name has no space at either end and no two spaces in a row |
| OcrProcessor.CleanNameFixed | voice-accounting-system/ocr-processor.js:463-471 | a cleaned name is left as it is |
| OcrProcessor.CleanBusinessNameIdempotent | voice-accounting-system/ocr-processor.js:463-471 | cleaning a name twice gives the same result as cleaning it once |
| OcrProcessor.Round | voice-accounting-system/ocr-processor.js:441 | `Math.round` gives the integer within half of the value, rounding halves up |
| OcrProcessor.NearestAt | voice-accounting-system/ocr-processor.js:445-447 | the fold's pick is at least as near as every slab and strictly nearer than every earlier one |
| OcrProcessor.Nearest | voice-accounting-system/ocr-processor.js:445-447 | the pick is one of the slabs and at least as near as every slab |
| OcrProcessor.SnapRate | voice-accounting-system/ocr-processor.js:444-448 | the snapped rate is always one of 0, 5, 12, 18, 28 |
| OcrProcessor.SnapRateNearest | voice-accounting-system/ocr-processor.js:445-447 | the snapped rate is nearest among the slabs, and of two equally near slabs it is the smaller |
| OcrProcessor.SnapRateStandard | voice-accounting-system/ocr-processor.js:444-448 | a standard slab snaps to itself |
| OcrProcessor.SnapRateTies | voice-accounting-system/ocr-processor.js:445-447 | 15 snaps to 12 (the tie goes to the smaller slab) and 23 to 18 |
| OcrProcessor.GstRateOf | voice-accounting-system/ocr-processor.js:440-449 | the rate derived from tax over subtotal is a standard slab nearest to the rounded percentage |
| OcrProcessor.GstRateOfExact | voice-accounting-system/ocr-processor.js:440-449 | an 18% tax on a positive subtotal is read back as the 18% slab |
| OcrProcessor.NumOr | voice-accounting-system/ocr-processor.js:395-397 | `a \|\| b` on numbers: `a` when it is truthy, `b` otherwise |
| OcrProcessor.Invoice.constructor | voice-accounting-system/ocr-processor.js:223-233 | the record extraction starts from: every field null, no items, two fresh and distinct empty party objects |
| OcrProcessor.Invoice.Copy | voice-accounting-system/ocr-processor.js:417 | the shallow copy has the same field values and shares the two party objects |
| OcrProcessor.Invoice.ExtractLineItems | voice-accounting-system/ocr-processor.js:332-375 | the items scanned from the trimmed lines are appended in order, the subtotal is their total sum when there are items and no subtotal, and nothing else changes |
| OcrProcessor.Invoice.FillSubtotal | voice-accounting-system/ocr-processor.js:372-374 | with items and no subtotal, the subtotal becomes the sum of the item totals (missing totals count 0); otherwise it is kept |
| OcrProcessor.CollectItems | voice-accounting-system/ocr-processor.js:336-369 | the loop pushes exactly the items of the section scan, in order |
| OcrProcessor.DropCommas | voice-accounting-system/ocr-processor.js:395-397 | no comma is left, and a text without commas is unchanged |
| OcrProcessor.FillIn | voice-accounting-system/ocr-processor.js:400-406 | description and quantity are kept, a truthy unit price and a truthy total are kept, and without a quantity nothing is filled in |
| OcrProcessor.FillInConsistent | voice-accounting-system/ocr-processor.js:400-406 | with a quantity and exactly one of unit price and total, the filled-in item has both and total = quantity × unit price |
| OcrProcessor.ParseLineItem | voice-accounting-system/ocr-processor.js:393-398 | the description is trimmed and the quantity is always a truthy number |
| OcrProcessor.GroupNumberOfDigits | voice-accounting-system/ocr-processor.js:395 | a group of plain digits reads as their value |
| OcrProcessor.AmountOnlyLineQuantity | voice-accounting-system/ocr-processor.js:387-397 | on the description-and-amount pattern the amount becomes quantity, unit price and total alike |
| OcrProcessor.SameAmountInconsistent | voice-accounting-system/ocr-processor.js:395-397 | v units at v each do not total v unless v is 1 |
| OcrProcessor.AmountOnlyLineInconsistent | voice-accounting-system/ocr-processor.js:387-397 | so for any amount above 1 the parsed item contradicts itself |
| OcrProcessor.FixedParseLineItem | voice-accounting-system/ocr-processor.js:393-398 | the corrected parse also trims the description and always has a truthy quantity |
| OcrProcessor.FixedAmountOnlyLine | voice-accounting-system/ocr-processor.js:387 | the corrected amount-only line is one unit at the amount, so total = quantity × unit price |
| OcrProcessor.FixedParseLineItemKeepsFullMatches | voice-accounting-system/ocr-processor.js:383-385 | lines matching the quantity-and-price patterns are read the same way by both parses |
| OcrProcessor.KeepInvoiceChars | voice-accounting-system/ocr-processor.js:421 | only word characters and `-` are kept, and a text of them only is unchanged |
| OcrProcessor.CleanInvoiceNumber | voice-accounting-system/ocr-processor.js:421 | the cleaned number has only word characters and `-`, and no lower-case letter |
| OcrProcessor.CleanInvoiceNumberIdempotent | voice-accounting-system/ocr-processor.js:421 | cleaning an invoice number twice gives the same result as cleaning it once |
| OcrProcessor.ScanStepHeader | voice-accounting-system/ocr-processor.js:341-350 | a header line enters the section and is not itself parsed |
| OcrProcessor.ScanStepEnd | voice-accounting-system/ocr-processor.js:353-360 | inside the section, an end line that is not a header stops the scan |
| OcrProcessor.ScanStepLine | voice-accounting-system/ocr-processor.js:363-368 | any other line is parsed inside the section when it is not empty, and skipped otherwise |
| OcrProcessor.SumTotalsAppend | voice-accounting-system/ocr-processor.js:373 | the sum of totals over two lists is the sum of their sums |
| OcrProcessor.ScanSkipsPreamble | voice-accounting-system/ocr-processor.js:336-369 | lines before the first header line contribute nothing |
| OcrProcessor.ScanWithoutHeader | voice-accounting-system/ocr-processor.js:336-369 | text without a header line yields no items |
| OcrProcessor.ScanHeaderReenters | voice-accounting-system/ocr-processor.js:341-350 | a header line always (re-)enters the section, because it is checked first, even when it also names a total |
| OcrProcessor.ScanTotalAmountIsHeader | voice-accounting-system/ocr-processor.js:347 | a "Total Amount" line counts as a header because it mentions "amount" |
| OcrProcessor.ScanEndStops | voice-accounting-system/ocr-processor.js:353-360 | inside the section an end line that is not a header stops the scan there |
| OcrProcessor.Parses | voice-accounting-system/ocr-processor.js:364 | the parse of each line, in order |
| OcrProcessor.ScanItems | voice-accounting-system/ocr-processor.js:334-368 | at most one item per line; the ScanStep lemmas state the header, end and parse steps and ScanItemsFromLines where each item comes from |
| OcrProcessor.ScanItemsFromLines | voice-accounting-system/ocr-processor.js:363-368 | every collected item is the parse of one of the lines, in line order |
| OcrPostProcess.CleanedNumber | voice-accounting-system/ocr-processor.js:420-422 | a present invoice number keeps only word characters and `-`, upper-cased; a missing one is left as it is |
| OcrPostProcess.CheckedDate | voice-accounting-system/ocr-processor.js:425-432 | a missing date is left as it is |
| OcrPostProcess.DerivedGst | voice-accounting-system/ocr-processor.js:435-437 | a truthy tax is kept; a missing tax with subtotal and total present becomes their difference, so tax + subtotal = total; otherwise the tax is unchanged |
| OcrPostProcess.DerivedRate | voice-accounting-system/ocr-processor.js:440-449 | with a truthy tax and a positive subtotal the rate is always a standard slab; otherwise the rate is unchanged |
| OcrPostProcess.CleanedNameIdempotent | voice-accounting-system/ocr-processor.js:452-457 | cleaning a present business name twice is cleaning it once |
| OcrPostProcess.PostProcessed | voice-accounting-system/ocr-processor.js:416-460 | totals, subtotal, GSTIN and items are untouched, and the rate is either unchanged or a standard slab |
| OcrPostProcess.PostProcessedNames | voice-accounting-system/ocr-processor.js:452-457 | present vendor and customer names come out cleaned, and the parties' addresses and contacts are untouched |
| OcrPostProcess.PostProcessedDerivesRate | voice-accounting-system/ocr-processor.js:435-449 | subtotal 1000 and total 1180 without a tax give tax 180 and the 18% slab |
| OcrPostProcess.PostProcessedNegativeGst | voice-accounting-system/ocr-processor.js:435-449 | a total below the subtotal derives a negative tax, which snaps to the 0% slab |
| OcrPostProcess.SnapRateNonPositive | voice-accounting-system/ocr-processor.js:444-448 | a rounded rate of 0 or less snaps to 0 |
| OcrPostProcess.PostProcessedIdempotent | voice-accounting-system/ocr-processor.js:416-460 | when the date normalisation is itself idempotent, post-processing twice is post-processing once |
| OcrPostProcess.PostProcess | voice-accounting-system/ocr-processor.js:416-460 | a fresh record with the post-processed fields, sharing the input's party objects, whose names the shallow copy cleans in place; the input record's own fields are unchanged |
| OcrPostProcess.CleanNames | voice-accounting-system/ocr-processor.js:452-457 | each party object gets its present name cleaned, in place |
| OcrReport.QualityScore | voice-accounting-system/ocr-processor.js:642-661 | the score is always between 0 and 100 |
| OcrReport.QualityScoreUncapped | voice-accounting-system/ocr-processor.js:644-660 | the weights add up to at most 100, so the cap never changes the sum of the present fields' weights |
| OcrReport.QualityScoreFull | voice-accounting-system/ocr-processor.js:653-658 | the score is 100 exactly when all six fields are present |
| OcrReport.QualityScoreEmpty | voice-accounting-system/ocr-processor.js:653-658 | the score is 0 exactly when none of the six fields is present |
| OcrReport.QualityScoreGstin | voice-accounting-system/ocr-processor.js:650-658 | a GSTIN adds exactly 10 to the score |
| OcrReport.Validate | voice-accounting-system/ocr-processor.js:634-638 | the verdict carries the data quality score |
| OcrReport.ValidateValidIff | voice-accounting-system/ocr-processor.js:611-639 | the record is valid exactly when invoice number, date, total, vendor name and at least one item are all present |
| OcrReport.MessageInjective | voice-accounting-system/ocr-processor.js:614-632 | the five error messages are distinct |
| OcrReport.FailedChecksIff | voice-accounting-system/ocr-processor.js:614-632 | a check is listed exactly when it fails |
| OcrReport.FailedChecksOrdered | voice-accounting-system/ocr-processor.js:614-632 | failed checks are listed in the fixed order of the five checks |
| OcrReport.ValidateErrors | voice-accounting-system/ocr-processor.js:612-636 | a check's message is among the errors exactly when the check fails, and no message is repeated |
| OcrReport.ValidateIgnoresGstin | voice-accounting-system/ocr-processor.js:611-639 | the GSTIN changes neither the verdict nor the errors |
| OcrReport.ValidImpliesScore | voice-accounting-system/ocr-processor.js:635-657 | a valid record scores at least 90 |
| OcrReport.ItemRows | voice-accounting-system/ocr-processor.js:710-717 | one row per item, in order, of description, quantity, unit price and total |
| OcrReport.CsvLines | voice-accounting-system/ocr-processor.js:719 | one quoted, comma-joined line per row, in order |
| OcrReport.ConvertToCsv | voice-accounting-system/ocr-processor.js:681-720 | the CSV is the header row, the present fields, the items header and the item rows, each cell quoted, cells joined by ',' and rows by '\n' |
| OcrReport.CsvFirstLine | voice-accounting-system/ocr-processor.js:685-719 | the CSV always starts with the line `"Field","Value"` |
| OcrReport.CsvLineCons | voice-accounting-system/ocr-processor.js:719 | a line is its first quoted cell, then ',' and the rest |
| OcrReport.CsvLineFree | voice-accounting-system/ocr-processor.js:719 | a row without line breaks gives a line without line breaks |
| OcrReport.CsvSplitLines | voice-accounting-system/ocr-processor.js:719 | when no field holds a line break, splitting the CSV at line breaks gives back exactly its lines |
| OcrReport.CsvItemLines | voice-accounting-system/ocr-processor.js:705-719 | the column header line comes right after the field lines, an empty line and the title, followed by exactly one line per item, in input order |
| OcrReport.CsvLineCells | voice-accounting-system/ocr-processor.js:719 | when no cell holds a comma, splitting a line at commas and unquoting gives back the cells |
| OcrReport.ExportData | voice-accounting-system/ocr-processor.js:664-678 | an unsupported format is an error naming the format as given |
| OcrReport.ExportCaseInsensitive | voice-accounting-system/ocr-processor.js:665 | a format is accepted exactly when its lower-case form is json, csv or html, and in any letter case it exports what the lower-case form does |
| OcrReport.ExportDefaults | voice-accounting-system/ocr-processor.js:664-670 | without a format the export is JSON, and "CSV" gives the CSV text |
| OcrReport.ExportRefuses | voice-accounting-system/ocr-processor.js:675-676 | "xml" is refused with "Unsupported format: xml" |
| TranscriptPatterns.RunEnd | voice-accounting-system/voice-commands.js:162 | the end of the longest run of the class from a position: every character before it is in the class and the next is not |
| TranscriptPatterns.FirstStart | voice-accounting-system/voice-commands.js:162-173 | the leftmost position at or after the start where the pattern matches, none earlier; none when it matches nowhere |
| TranscriptPatterns.FirstStartAt | voice-accounting-system/voice-commands.js:162-173 | a match position with no match before it is the leftmost one |
| TranscriptPatterns.MatchEnd | voice-accounting-system/voice-commands.js:162-173 | a greedy match is never empty and ends inside the text |
| TranscriptPatterns.Match | voice-accounting-system/voice-commands.js:162-173 | `match(...)[0]` is null exactly when the pattern matches nowhere, and otherwise is the text of the leftmost greedy match |
| TranscriptPatterns.AmountMatchShape | voice-accounting-system/voice-commands.js:162 | the amount match is the first run of digits, then possibly a point and one or two digits |
| TranscriptPatterns.AmountIn | voice-accounting-system/script.js:385-388 | null exactly when the amount pattern does not match, and otherwise a number that is never negative |
| TranscriptPatterns.AmountInOfMatch | voice-accounting-system/voice-commands.js:162-165 | whenever the amount pattern matches, `parseFloat` of the match is a number, never negative |
| TranscriptPatterns.AmountInNonNegative | voice-accounting-system/voice-commands.js:162-165 | an amount taken from a transcript is never negative |
| TranscriptPatterns.AmountInNone | voice-accounting-system/voice-commands.js:162-167 | a transcript without a digit has no amount |
| TranscriptPatterns.AmountMatchWhole | voice-accounting-system/voice-commands.js:162 | without a point and a digit after the first run of digits, the amount match is that run |
| TranscriptPatterns.AmountInWhole | voice-accounting-system/voice-commands.js:162-165 | then the amount is the decimal value of that run |
| TranscriptPatterns.ParseFloatOfRun | voice-accounting-system/voice-commands.js:164 | `parseFloat` of a run of digits is its decimal value |
| PhraseTable.FirstHit | voice-accounting-system/voice-commands.js:108-124 | the first command, and within it the first phrase, that the text includes, in table order; none when no phrase is included |
| PhraseTable.FirstHitUnique | voice-accounting-system/voice-commands.js:108-124 | the first hit is determined by the table and the text |
| PhraseTable.FirstHitNone | voice-accounting-system/voice-commands.js:108-124 | there is no hit exactly when the text includes no phrase of the table |
| PhraseTable.KeyIgnoresCase | voice-accounting-system/voice-commands.js:109 | upper-casing the transcript does not change what is matched, since it is lower-cased and trimmed first |
| VoiceCommands.CommandOf | voice-accounting-system/voice-commands.js:113-123 | there is a command exactly when there is a hit, and it carries the transcript as given |
| VoiceCommands.VoiceCommandProcessor.constructor | voice-accounting-system/voice-commands.js:8-25 | the default command table, no recogniser, not listening, language en-IN |
| VoiceCommands.VoiceCommandProcessor.IdentifyCommand | voice-accounting-system/voice-commands.js:108-124 | the command of the first hit of the table in the trimmed, lower-cased transcript |
| VoiceCommands.VoiceCommandProcessor.ProcessSpeechResult | voice-accounting-system/voice-commands.js:81-106 | the final and interim texts are the concatenations, in order, of the final and of the interim results from the result index on; interim text is shown when not empty; a command is identified and run only when the final text is not empty |
| VoiceCommands.CollectedPartition | voice-accounting-system/voice-commands.js:84-91 | every result's text goes to exactly one of the final and interim texts |
| VoiceCommands.CollectedUniform | voice-accounting-system/voice-commands.js:84-91 | when all results are final (or all interim), that text is all the text and the other is empty |
| VoiceCommands.CollectedSnoc | voice-accounting-system/voice-commands.js:84-91 | one more result extends only the text of its own kind |
| VoiceCommands.AmountAction | voice-accounting-system/voice-commands.js:160-169 | the prompt for an amount exactly when no amount matches; otherwise the GST calculation of the parsed amount |
| VoiceCommands.InvoiceAction | voice-accounting-system/voice-commands.js:171-180 | as written: the prompt for a number exactly when neither invoice pattern matches |
| VoiceCommands.InvoiceActionCode | voice-accounting-system/voice-commands.js:173-175 | an `INV-` code is searched exactly as matched |
| VoiceCommands.CodeMatchShape | voice-accounting-system/voice-commands.js:173 | an `INV-` match is three letters, a dash and at least one digit |
| VoiceCommands.NoCodeWithoutDash | voice-accounting-system/voice-commands.js:173 | a transcript without a dash has no `INV-` match |
| VoiceCommands.InvoiceActionKeepsKeyword | voice-accounting-system/voice-commands.js:173-175 | "Find Invoice 7" searches "Invoice 7": the case-sensitive replace leaves the keyword in |
| VoiceCommands.InvoiceWordGroup | voice-accounting-system/voice-commands.js:173 | the `(\w+)` group is there exactly when the word pattern matches |
| VoiceCommands.FixedInvoiceAction | voice-accounting-system/voice-commands.js:171-180 | corrected: the prompt exactly when neither pattern matches, as written |
| VoiceCommands.FixedInvoiceActionWord | voice-accounting-system/voice-commands.js:173-175 | corrected: a word match searches a non-empty number made of word characters only |
| VoiceCommands.FixedInvoiceActionAgrees | voice-accounting-system/voice-commands.js:173-175 | corrected and as written agree when the match starts with lower-case "invoice" and a single space |
| VoiceCommands.FixedInvoiceActionExample | voice-accounting-system/voice-commands.js:173-175 | corrected: "Find Invoice 7" searches "7" |
| VoiceCommands.ActionOf | voice-accounting-system/voice-commands.js:126-157 | calculateGST runs the amount extractor and searchInvoice the as-written invoice extractor on the transcript as spoken; only they calculate, search or prompt, and a navigation loads invoice.html, reports.html or dashboard.html |
| VoiceCommands.ActionOfTable | voice-accounting-system/voice-commands.js:126-157 | each of the seven commands of the default table, whatever phrase found it: invoice.html, the expense modal, reports.html, the amount extractor, the as-written invoice extractor, dashboard.html and the help modal; none of them does nothing |
| VoiceCommands.ActionOfUnlisted | voice-accounting-system/voice-commands.js:133-156 | a kind the table does not name matches no case of the switch and does nothing |
| VoiceCommands.ActionOfKeepsKeyword | voice-accounting-system/voice-commands.js:146-147 | through the dispatch, "Find Invoice 7" searches for "Invoice 7" as written |
| VoiceCommands.FixedActionOf | voice-accounting-system/voice-commands.js:126-157 | corrected: the dispatch with the corrected invoice extractor, the same as ActionOf for every other kind |
| VoiceCommands.FixedActionOfExample | voice-accounting-system/voice-commands.js:146-147 | corrected: through the dispatch, "Find Invoice 7" searches for "7" |
| VoiceCommands.Recognition.Start | voice-accounting-system/voice-commands.js:68 | one more start call, settings unchanged |
| VoiceCommands.Recognition.Stop | voice-accounting-system/voice-commands.js:77 | one more stop call, settings unchanged |
| VoiceCommands.VoiceCommandProcessor.InitializeRecognition | voice-accounting-system/voice-commands.js:28-63 | succeeds exactly when speech recognition is supported, then a fresh recogniser that is continuous, reports interim results and uses the current language; otherwise nothing changes |
| VoiceCommands.VoiceCommandProcessor.StartListening | voice-accounting-system/voice-commands.js:65-73 | the recogniser is started once exactly when there is one and it is not listening |
| VoiceCommands.VoiceCommandProcessor.StopListening | voice-accounting-system/voice-commands.js:75-79 | the recogniser is stopped once exactly when there is one and it is listening |
| VoiceCommands.VoiceCommandProcessor.OnStart | voice-accounting-system/voice-commands.js:46-49 | the recogniser's start event sets the listening flag |
| VoiceCommands.VoiceCommandProcessor.OnEnd | voice-accounting-system/voice-commands.js:59-62 | the recogniser's end event clears the listening flag |
| VoiceCommands.VoiceCommandProcessor.SetLanguage | voice-accounting-system/voice-commands.js:264-269 | the current language and, when there is a recogniser, its language become the code; nothing is started or stopped |
| VoiceCommands.VoiceCommandProcessor.Start | voice-accounting-system/voice-commands.js:272-278 | succeeds exactly when recognition is supported, then with a fresh recogniser started once unless already listening |
| VoiceCommands.VoiceCommandProcessor.Stop | voice-accounting-system/voice-commands.js:280-282 | stops the recogniser exactly when listening |
| VoiceCommands.VoiceCommandProcessor.Toggle | voice-accounting-system/voice-commands.js:284-290 | listening: the same recogniser is stopped once; not listening and supported: a fresh recogniser started once; not supported: nothing changes |
| VoiceServer.PatternsFor | voice-accounting-system/server.js:285 | English phrases exactly for "en", the Hindi ones for every other language |
| VoiceServer.TablesDiffer | voice-accounting-system/server.js:268-283 | the two tables differ, so the choice is visible |
| VoiceServer.ProcessVoiceCommand | voice-accounting-system/server.js:261-304 | a successful response echoing command and language (default "hi"), the three actions, and the result of the first phrase of the table the lower-cased command includes, or the unknown result |
| VoiceServer.FirstPatternUnique | voice-accounting-system/server.js:289-294 | the first pattern is determined by table and command |
| VoiceServer.ResultOfFirst | voice-accounting-system/server.js:286-294 | the result is the unknown one exactly when the command includes no phrase of the table, and otherwise is the result of a phrase it includes |
| VoiceServer.TablesKnown | voice-accounting-system/server.js:268-283 | no canned result is the unknown one |
| VoiceServer.EnglishSaleFirst | voice-accounting-system/server.js:275-294 | an English command mentioning "sale" in any case is recorded as a sale, whatever else it mentions |
| ClientScript.CommandOfHit | voice-accounting-system/script.js:309-316 | a command exactly when there is a hit |
| ClientScript.IdentifyVoiceCommand | voice-accounting-system/script.js:295-317 | the command of the first keyword, in table order, that the transcript includes, or none |
| ClientScript.IdentifiedCommand | voice-accounting-system/script.js:295-317 | a returned command's keyword occurs in the transcript and belongs to that command's list; none is returned exactly when the transcript includes no keyword |
| ClientScript.IdentifyIgnoresCase | voice-accounting-system/script.js:286 | the caller lower-cases the transcript, so upper-casing it first changes nothing |
| ClientScript.InvoiceNumberIn | voice-accounting-system/script.js:390-395 | a number found is never empty, so the caller's truthiness test passes whenever one is found |
| ClientScript.InvoiceNumberNone | voice-accounting-system/script.js:390-395 | there is no invoice number exactly when the transcript has no digit and no "invoice" followed by spaces and a word |
| ClientScript.InvoiceNumberKeepsKeyword | voice-accounting-system/script.js:392-394 | a number found by the word pattern keeps the keyword: "invoice", spaces and the word |
| ClientScript.InvoiceNumberDigits | voice-accounting-system/script.js:393-394 | a number found by the last pattern is a run of digits |
| ClientScript.ExecuteVoiceCommand | voice-accounting-system/script.js:319-359 | create_invoice, view_invoices, add_expense, view_reports, go_to_dashboard and open_settings load their pages and help opens the help; calculate_gst calculates on the first amount when it is truthy and warns exactly when there is none or it is 0; search_invoice searches exactly when an invoice number is found, the extracted one, and otherwise does nothing |
| ClientScript.ExecuteVoiceCommandUnlisted | voice-accounting-system/script.js:322-358 | a kind the command table does not name falls through the switch and does nothing |
| ClientScript.FormatTime | voice-accounting-system/script.js:861-875 | under a minute "Just now"; then whole minutes (1-59), hours (1-23) and days (1-6) ago; from a week on the locale date |
| ClientScript.FilterRecords | voice-accounting-system/script.js:1040-1043 | the records kept are in their original order, a record is kept exactly when its lower-cased title or description includes the query, and each kept record occurs as often as in the input |
| ClientScript.PerformSearch | voice-accounting-system/script.js:1021-1044 | the matching mock records, in order |
| ClientScript.HandleSearch | voice-accounting-system/script.js:972-984 | no search exactly when the trimmed, lower-cased query has fewer than two characters; otherwise the mock records matching it |
| ClientScript.PerformGstCalculation | voice-accounting-system/script.js:1153-1168 | an empty amount field is refused, and a non-empty field `parseFloat` cannot read passes the check as NaN; GstOfInput, GstBreakdownSums and GstBreakdownShape state the computed breakdown |
| ClientScript.GstOfInput | voice-accounting-system/script.js:1153-1168 | an empty input or an amount of 0 or less is refused; an input that is not a number is NaN |
| ClientScript.GstBreakdownSums | voice-accounting-system/script.js:1167-1197 | a calculated GST is amount times rate over 100, the total is the amount plus that, and the breakdown's amounts add up to the GST and its rates to the rate |
| ClientScript.GstBreakdownShape | voice-accounting-system/script.js:1176-1197 | cgst_sgst splits rate and amount in two equal halves, CGST then SGST; any other method gives one IGST line at the full rate |
| ClientScript.QuickGst | voice-accounting-system/script.js:1070-1073 | the spoken calculation takes 18% GST and adds it to the amount |
| ClientScript.QuickGstAgrees | voice-accounting-system/script.js:1153-1168 | the spoken calculation of `calculateGST` (script.js lines 1070-1073) agrees with the calculator at rate 18 for every positive amount |
| ClientScript.ToggledTheme | voice-accounting-system/script.js:523-527 | the toggled theme is light or dark, and dark exactly when the theme was light |
| ClientScript.ToggleThemeTwice | voice-accounting-system/script.js:523-527 | toggling twice restores the theme exactly when it was light or dark; any other theme becomes dark |
| ClientScript.ClientState.constructor | voice-accounting-system/script.js:46-56 | voice off, light theme, English, nothing stored |
| ClientScript.ClientState.SaveUserState | voice-accounting-system/script.js:94-100 | the stored theme and language become the current ones; nothing else changes |
| ClientScript.ClientState.SetTheme | voice-accounting-system/script.js:508-521 | the theme becomes the given one and is saved |
| ClientScript.ClientState.ToggleTheme | voice-accounting-system/script.js:523-527 | the theme becomes the toggled one and is saved |
| ClientScript.ClientState.SetLanguage | voice-accounting-system/script.js:450-466 | the language becomes the given one and is saved |
| ClientScript.ClientState.StartVoiceRecognition | voice-accounting-system/script.js:212-257 | without browser support nothing is created or started; with it a recogniser is held and started once |
| ClientScript.ClientState.StopVoiceRecognition | voice-accounting-system/script.js:259-265 | a held recogniser is stopped once and dropped; without one no stop is made |
| ClientScript.ClientState.ToggleVoiceControl | voice-accounting-system/script.js:198-210 | the voice flag flips; turning on starts a new recogniser exactly when the browser supports one, turning off stops the current recogniser exactly when there is one and drops it; theme, language and storage are untouched |
| AccountingApp.MergeConfig | voice-accounting-system/app.js:60 | the spread keeps every key of both, and a saved value wins over the default |
| AccountingApp.IndexIn | voice-accounting-system/app.js:985 | `indexOf`: -1 exactly when absent, otherwise the first position holding the value |
| AccountingApp.NextLanguage | voice-accounting-system/app.js:983-988 | the next language is always one of the ten |
| AccountingApp.LanguagesDistinct | voice-accounting-system/app.js:984 | the ten language codes are distinct |
| AccountingApp.NextLanguageOfListed | voice-accounting-system/app.js:983-988 | a listed language moves to the next in the list, the last back to the first |
| AccountingApp.NextLanguageOfUnlisted | voice-accounting-system/app.js:985-987 | an unlisted or missing language moves to "hi", since -1 + 1 is 0 |
| AccountingApp.IterateAround | voice-accounting-system/app.js:983-988 | a step moving every list element to the next, round the end, moves an element by n places in n steps |
| AccountingApp.CycledIndex | voice-accounting-system/app.js:983-988 | n presses move a listed language n places round the list |
| AccountingApp.CycleOfTen | voice-accounting-system/app.js:983-988 | ten presses bring any listed language back, and fewer never do |
| AccountingApp.LanguageMessage | voice-accounting-system/app.js:1000-1014 | every unlisted language is confirmed with "Language changed" |
| AccountingApp.ThemeAfterToggle | voice-accounting-system/app.js:1028 | a non-empty theme given is taken as it is; otherwise the theme flips: dark exactly when it was light |
| AccountingApp.ToggleTwice | voice-accounting-system/app.js:1028 | toggling twice restores light or dark, and turns anything else into dark |
| AccountingApp.QuickActionOf | voice-accounting-system/app.js:819-830 | an action runs exactly when its name is one of the six |
| AccountingApp.QuickActionNamesDistinct | voice-accounting-system/app.js:819-826 | different names run different actions |
| AccountingApp.VoiceAccountingApp.constructor | voice-accounting-system/app.js:3-72 | the default configuration merged with the saved one; the page language and theme follow the loaded configuration, and are left alone when the saved text does not parse |
| AccountingApp.VoiceAccountingApp.LoadConfig | voice-accounting-system/app.js:55-72 | saved settings are merged over the current ones; language and theme of the page follow the configuration unless the saved text does not parse |
| AccountingApp.VoiceAccountingApp.SaveConfig | voice-accounting-system/app.js:1214-1220 | the stored configuration becomes the current one; nothing else changes |
| AccountingApp.VoiceAccountingApp.ShowNotification | voice-accounting-system/app.js:1157-1158 | a message is shown exactly when the notifications setting is truthy, and nothing else changes |
| AccountingApp.VoiceAccountingApp.ChangeLanguage | voice-accounting-system/app.js:990-1019 | the language is set and saved, the message of that language is spoken when voice feedback is on, and "Language changed to" the code is shown exactly when the notifications setting is truthy |
| AccountingApp.VoiceAccountingApp.CycleLanguage | voice-accounting-system/app.js:983-988 | the language becomes the next one of the list and is applied and saved; its message is spoken when voiceFeedback is truthy, and "Language changed to" the next code is shown exactly when the notifications setting is truthy |
| AccountingApp.VoiceAccountingApp.ToggleTheme | voice-accounting-system/app.js:1027-1035 | the theme becomes the toggled one, the page is dark exactly when it is dark, it is saved, and "Theme changed to" the theme is shown exactly when the notifications setting is truthy |
| AccountingApp.VoiceAccountingApp.HandleQuickAction | voice-accounting-system/app.js:818-831 | a known action is run once; an unknown one does nothing; the configuration is untouched |

## Left out

- Network and storage I/O is not modelled: `translateText`/`translateOnline` and their cache, every `fetch`, socket and Express route, the database, and `localStorage` beyond the stored values the classes keep as fields.
- The OCR engine (Tesseract, pdf.js, canvas), `extractInvoiceData` and `extractBusinessInfo` are left out. They are regular-expression heuristics over recognised text.
- DOM and presentation are left out: page updates, notifications' markup, modals, `convertToHTML` (the HTML export is the result `HtmlOf(data)` without its text), `updatePageTranslations`, `formatCurrency`/`formatDate` and the other `Intl` formatting. The JSON export's text is likewise the result `JsonOf(data)`.
- The Web Speech API is left out. The recogniser is modelled only by its settings, whether one is held, and the start and stop calls made on it; the automatic restart in its `onend` handler is a timer and is left out. Speech synthesis is modelled only by the texts spoken.
- Timers and asynchrony are left out: the 500 ms delay in `processVoiceCommand`, `setTimeout` auto-hide, the server's `timestamp`, and the `Math.random` in `searchInvoice`.
- `interpretNaturalLanguage` (script.js:361-383) is left out. It is the page's fallback of canned replies; only its callers' use of `extractAmountFromTranscript` is modelled.
- IEEE-754 behaviour is not modelled: `NaN`, infinities and rounding. The division points are stated as explicit results or preconditions.
- `GstCalculator.ReverseCalculate` requires the rate not to be -100, where the source divides by zero.
- The `Date` parsing and `toISOString` step of `postProcessExtractedData` is a parameter, `isoDay`. The `toLocaleDateString` text of `formatTime` is a parameter too.
- Inherited property names are not modelled. `patterns[language]` in server.js and `actions[action]` in app.js would find `Object.prototype` members such as `constructor` or `__proto__`; the model treats every name outside the literal tables as absent.
- In `loadConfig` the saved text is modelled as already parsed: either a configuration or text that fails to parse. A saved JSON value that is not an object is not modelled.
- `toLowerCase` and `toUpperCase` are modelled on ASCII letters only. Unicode case mapping is not modelled. The tables' non-Latin phrases have no case, so they are unaffected.
- NumberWords.Words: the spellers take an integer; fractional inputs, for which the source's `%` and `Math.floor` steps behave differently, are not modelled.
- OcrProcessor.ParseDate: `parseDate`'s `new Date(year, month, day)` and `toISOString()` (ocr-processor.js:502-504) are not modelled. `OcrProcessor.ParseDate` returns the matched day, month and year fields, so the roll-over of an impossible date such as "31/02/2024" to 2 March and the local-to-UTC shift of `toISOString` are not captured.
- OcrProcessor.ParseLineItem: the three line regular expressions of `parseLineItem` (ocr-processor.js:383-387) are not written out. `OcrProcessor.ParseLineItem` takes the matched groups as an `ItemMatch`, and `ExtractLineItems` takes the line parser as a parameter; what is modelled is the work done on the groups, not which pattern matches a line.
- GstCalculator.CalculateForItems: an item carries only its description, amount and rate. `calculateForItems` copies every other property of the item into its detail (gst-calculator.js:104-109), and those extra properties are not represented.
- JsString.NumberToString: number-to-string is exact decimal with at most twenty fraction digits. JavaScript's exponent form (1e21 prints "1e+21", 0.0000001 prints "1e-7") and its shortest round-trip digits (1/3 prints 16 significant digits) are not modelled.
- ClientScript.HandleSearch: strings are sequences of code points, while JavaScript's `length` counts UTF-16 code units. At script.js:975, `query.length < 2`, a single astral character such as "𝐀" has length 2 and is searched by the source, whereas `ClientScript.HandleSearch` clears the results. The same difference applies to every other length and index the model takes.
- VoiceServer.ProcessVoiceCommand: an absent language (`None`) becomes "hi". The source's `language = 'hi'` default applies only to `undefined`, so a JSON `null` language would be echoed as `null`, which the model does not represent.
- `getTranslationStats`, `exportTranslations`, the language selector and the RTL page-direction update are left out. They only read the tables or touch the page.

## Findings

| source | as written | input that shows it | evidently intended | confidence | as-written member | corrected member |
|---|---|---|---|---|---|---|
| voice-accounting-system/ocr-processor.js:474-510 | the day-first formats are tried before YYYY-MM-DD, and the two-digit-year format is not anchored, so it matches inside an ISO date | "2024-01-15" is read as day 24, month 0 (January), year 2015 | a year-first date is read year, month, day: 15 January 2024 | not executed | OcrProcessor.IsoDateMisread | OcrProcessor.FixedYearFirstDate |
| voice-accounting-system/ocr-processor.js:383-398 | for the amount-only pattern the quantity is `parseFloat(match[2])`, which is the amount itself | "Consulting 500" gives quantity 500, unit price 500 and total 500 | quantity 1, unit price and total 500 | not executed | OcrProcessor.AmountOnlyLineInconsistent | OcrProcessor.FixedAmountOnlyLine |
| voice-accounting-system/voice-commands.js:171-180 | the number searched is the whole match with the first literal, case-sensitive "invoice " removed | "Find Invoice 7" searches for "Invoice 7" | the `(\w+)` group: "7" | not executed | VoiceCommands.InvoiceActionKeepsKeyword | VoiceCommands.FixedInvoiceActionExample |
