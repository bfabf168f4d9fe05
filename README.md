# lingua_franca, English, in Dafny

A model of the English side of lingua_franca, Mycroft's library for
formatting and parsing natural language, with proofs about it. It covers
the operations the repository's English tests (`test/test_format.py`,
`test/test_parse.py`) exercise:

- `pronounce_number` for integers and truncated decimals: short and long
  scale, the sign word, ordinals, and the four-digit colloquial reading
  (`numerals.dfy`, laws in `numeral_laws.dfy`). The number vocabulary is
  in `english_words.dfy`.
- `nice_time`, digital and spoken, on the 12- and 24-hour clock
  (`clock.dfy`).
- `join_list` (`lists.dfy`).
- `nice_duration`, spoken and digital, and `nice_relative_time`
  (`durations.dfy`).
- The language registry: `load_language(s)`, `set_default_lang`,
  `unload_language(s)`, and which language a call without one uses
  (`registry.dfy`). It is a class whose methods update the loaded list and
  the default in place, specified against pure functions on a `State`
  value.
- `extract_number` and `extract_numbers` for whole numbers (`extract.dfy`),
  and the proof that they read back what `pronounce_number` writes for
  every number of one group (`read_back.dfy`).
- `normalize`: contractions expanded, number words written as digits,
  articles dropped when asked, spaces collapsed (`normalize.dfy`). The
  contraction table is in `contractions.dfy`.
- String helpers: word splitting, joining, ASCII lower-casing and decimal
  digits (`text.dfy`).

Each `*_examples.dfy` file restates asserted cases of the tests as lemmas
about the model and proves them. The clock, duration, list, numeral,
registry and extraction files take one lemma per assertion in the modelled
behaviour. `normalize_examples.dfy` restates a selection of the `normalize`
assertions (30 of them): for the rest (for example `test/test_parse.py:814-817`,
`test/test_parse.py:824-838`, `test/test_parse.py:843-846`,
`test/test_parse.py:871-896` and most lines of
`test/test_parse.py:941-1088`) the model gives only the general lemmas
Normalize.ExpandContractions, Normalize.WritesExtractedNumbers and
Normalize.RemovesExactlyArticles, not a proof of each asserted string.

Where the tests do not pin the behaviour down, the model makes these
choices:

- The colloquial four-digit reading ("fourteen fifty six") applies to a
  plain integer call. It applies when n % 1000 != 0, (n / 10) % 100 != 0
  and n / 100 is in 10..19. It reads "X hundred" when the last two digits
  are zero and "X oh Y" when they are below ten.
- Under the long scale the lowest million keeps its comma-separated
  groups. Each higher chunk of six digits is one group, its thousands run
  together and followed by "million", "billion", ...
  ("thirty four thousand billion").
- The scale-word table holds the 49 words the tests spell, from
  "thousand" to "millinillion" (`test/test_format.py:274-346`), so an
  integer reads in words below 10^150 under the short scale and below
  10^294 under the long one. Past the table the model returns the marker
  `Scientific`; the tests do not show that case for an integer.
- `pronounce_number` takes every argument explicitly. In the source
  `places` defaults to 2, `short_scale` to true and `ordinals` to false;
  where a test leaves one out (`test/test_format.py:155-159`) the
  corresponding example passes that default.
- `nice_duration`: the day phrase carries a trailing space of its own. This
  gives the double space in "five days  eighteen hours ..."
  (`test/test_format.py:620-621`), so a whole number of days ends with a
  space. Fractions of a second are dropped. Hours are zero-padded only
  when there is a day field ("5d 18:53:20").
- Durations are whole, non-negative numbers of seconds: a plain number
  is `Secs(n)` with `n: nat`, and a timedelta is its days and seconds.
- `nice_relative_time` uses the coarsest unit of which the distance holds
  at least one whole, rounds halves up, and takes the distance's
  magnitude.
- Unloading the default language makes the first language still loaded
  the default, or leaves no default.
- `extract_number` reads maximal runs of number words that compose. A
  sign word directly before a run negates it. "and" between a hundred or
  scale word and a word that may follow it is passed over. A digit string
  may carry an ordinal ending or "%".
- `normalize` runs three stages. Each stage splits the text on spaces and
  joins its words back with single spaces:
  1. contractions are replaced by their expansions;
  2. runs of number words are written as digits, read with the same
     reader as `extract_numbers` (short scale, no ordinals), and every
     other word is written as it is;
  3. "the", "a" and "an" are dropped when asked.

  The result then has its spaces collapsed. Words keep their case. Only
  number words are classified in lower case ("Twenty" is a number word);
  contractions and articles match only as written, so "It's" is not
  expanded and "The" is not dropped. The contraction table holds the
  capitalised "I'd", "I'll", "I'm" and "I've" as the tests write them.

## Model

The functions standing for the library calls have no row of their own;
their behaviour is stated by the lemma rows about them.
Clock.NiceTime (`nice_time`): Clock.Digital24, Clock.Digital12,
Clock.SpokenOClock, Clock.SpokenQuarterPast, Clock.SpokenHalfPast,
Clock.SpokenQuarterTo, Clock.SpokenOhMinutes, Clock.SpokenOtherMinutes,
Clock.Spoken24Hour, Clock.AmPmIgnoredOn24Hour, Clock.CoreIgnoresAmPm and
Clock.AmPmAppends. Extract.ExtractNumbers (`extract_numbers`) and the
reader Extract.Scan under it: Extract.ExtractNumber, Extract.ScanEmptyIff,
Extract.SplitsWhenNotFollowing, Extract.SignNegatesRun,
Extract.SignWordNegates, Extract.FollowsOnlyNumbers, Extract.AddValue,
Extract.AddScaleValue, Extract.CaseInsensitive and, against the numeral
model, ReadBack.ReadsOwnWords. Normalize.Normalize (`normalize`):
Normalize.NormalizeByWords, Normalize.ExpandContractions,
Normalize.WritesExtractedNumbers, Normalize.RemovesExactlyArticles,
Normalize.NormalizeSingleSpaced, Normalize.WithoutNumberWords and
Normalize.PlainTextUnchanged.

| member | source | states |
|---|---|---|
| Numerals.SubHundred | test/test_format.py:135-143 | 1..99: a number below twenty is its one word; from twenty the tens word comes first ("twenty seven") |
| Numerals.SubThousand | test/test_format.py:186-188 | 1..999: below a hundred as `SubHundred`; from a hundred the digit word and "hundred" lead, and only a multiple of a hundred stops there ("one hundred"); any other remainder follows "and" in its `SubHundred` words ("six hundred and sixty six") |
| Numerals.GroupCountBound | test/test_format.py:234-245 | a number has at most k groups of three (or six) digits exactly when it is below 1000^k (10^6k), which ties the scale-word table's reach to the size of the number |
| Numerals.ShortGroupValue | test/test_format.py:190-202 | a non-zero group z of three digits at position i reads as z's words below a thousand followed by the i-th scale word, and names z * 1000^i |
| Numerals.ShortGroupsValue | test/test_format.py:190-202 | the short-scale groups of n, from position i on, name exactly n * 1000^i ("one million, one" names 1000001) |
| Numerals.LongChunkValue | test/test_format.py:246-252 | a chunk z of six digits at position j names exactly z * (10^6)^j under the long scale ("thirty four thousand billion") |
| Numerals.LongGroupsValue | test/test_format.py:246-252 | the long-scale groups of n, from chunk j on, name exactly n * (10^6)^j |
| Numerals.InRangeBound | test/test_format.py:274-346 | a magnitude can be named exactly when it is below 10^150 (short scale) or 10^294 (long scale), the reach of the 49 scale words "thousand" .. "millinillion" |
| Numerals.MagnitudeValue | test/test_format.py:234-275 | the groups of a magnitude name exactly that number, under either scale |
| Numerals.CardinalValue | test/test_format.py:135-153 | the cardinal reading names exactly n, zero and negative numbers included ("minus" negates what follows) |
| Numerals.Signed | test/test_format.py:145-151 | the sign word goes in front of the first group only; the other groups are unchanged |
| Numerals.SignedValue | test/test_format.py:145-151 | putting the sign word in front does not change the magnitude the groups name |
| Numerals.SpokenSingle | test/test_format.py:136-143 | a reading of one group is spoken as that group's words joined by spaces (no comma) |
| Numerals.SpokenSnoc | test/test_format.py:190-202 | a reading of several groups is spoken as the earlier groups, ", ", then the last group's words ("one million, one") |
| Numerals.Ordinalize | test/test_format.py:358-370 | only the last word of the last group becomes ordinal, except that a bare "one hundred" / "one thousand" / "one million" drops the "one" ("hundredth", "thousandth", "ten thousandth") |
| Numerals.OrdinalizeValue | test/test_format.py:358-370 | the ordinal reading names the same number as the cardinal reading it is made from ("one hundred and twenty third" names 123) |
| Numerals.Colloquial | test/test_format.py:189 | the four-digit colloquial reading applies exactly to 1010..1999, leads with the number's first two digits, and is just "X hundred" exactly for a multiple of a hundred ("fourteen fifty six") |
| Numerals.ColloquialValue | test/test_format.py:189 | after the leading pair, the colloquial reading's words name the last two digits ("fifty six" for 1456) |
| Numerals.ReadingValue | test/test_format.py:135-202 | wherever it is not the colloquial form, the reading names exactly n |
| Numerals.ZeroReading | test/test_format.py:136 | 0 reads "zero", and "zeroth" as an ordinal |
| Numerals.PronounceNumber | test/test_format.py:135-202 | `pronounce_number` spells exactly the integers within the scale table; the text is the reading's groups, ", " between groups; 0 is "zero" ("zeroth") |
| Numerals.BelowHundred | test/test_format.py:135-143 | 1..99 are spoken as their tens and units words alone, under either scale |
| Numerals.DigitNames | test/test_format.py:154-160 | one digit word per digit after the point, in order |
| Numerals.Shown | test/test_format.py:161-169 | the digits read after the point are the first `places` of them, or all when there are fewer (truncated, not rounded) |
| Numerals.DecimalReading | test/test_format.py:154-185 | a decimal reads as the integer part's groups ("minus" in front when negative), with "point" and one digit word per shown digit appended to the last group |
| NumeralLaws.DecimalWords | test/test_format.py:154-185 | the words of a decimal reading are the sign word, the integer part's words, then "point" and the shown digits' words |
| NumeralLaws.DecimalSpoken | test/test_format.py:154-185 | `pronounce_number` on a decimal is "minus " when negative, the integer part's text, then " point " and the shown digits' words ("twenty one point two three") |
| NumeralLaws.SignedSpoken | test/test_format.py:145-151 | putting "minus" in front of the first group puts "minus " in front of the spoken text |
| NumeralLaws.NegativeReadsMinus | test/test_format.py:145-151 | -n reads as "minus " and the cardinal of n, and so as "minus " and the reading of n wherever that is not the colloquial form |
| NumeralLaws.BelowBillionInRange | test/test_format.py:234-241 | every number below a billion is within the scale table under both scales |
| NumeralLaws.ScalesAgreeOnMagnitude | test/test_format.py:234-241 | below a billion the short and long scale give the same groups |
| NumeralLaws.ScalesAgreeBelowBillion | test/test_format.py:234-241 | below a billion the `short_scale` switch does not change `pronounce_number`'s text (299792458 under both scales) |
| NumeralLaws.NoZeroInShortGroups | test/test_format.py:190-202 | no short-scale group holds the word "zero" |
| NumeralLaws.NoZeroInLongGroups | test/test_format.py:246-252 | no long-scale group holds the word "zero" |
| NumeralLaws.ZeroGroupsOmitted | test/test_format.py:190-202 | a non-zero integer's reading never contains "zero": zero groups are left out, not read |
| NumeralLaws.WholeDecimalIsCardinal | test/test_format.py:163-164 | with no places (or no fraction) a decimal reads as the cardinal of its integer part ("twenty one" for 21.234 with places=0) |
| NumeralLaws.ExtraPlacesChangeNothing | test/test_format.py:165-170 | asking for more places than there are digits reads exactly the digits there are (places 3, 4 and 5 agree) |
| Clock.NumberWords | test/test_format.py:414-415 | the words of 1..99 are exactly what `pronounce_number` says for them |
| Clock.Hour12 | test/test_format.py:414-420 | the dial hour is in 1..12 and agrees with the hour modulo 12 (13 -> 1, 0 -> 12) |
| Clock.TwoDigitWords | test/test_format.py:488-491 | below ten the 24-hour speech says "zero" before the digit word ("zero two"), from ten the plain number |
| Clock.Digital24 | test/test_format.py:423-424 | "HH:MM": five characters, a colon in the middle, the fields reading back as the hour and the minute |
| Clock.Digital12 | test/test_format.py:419-422 | "H:MM": the dial hour unpadded, the minute in two digits, then " AM"/" PM" only when asked, by the hour being before noon or not |
| Clock.SpokenOClock | test/test_format.py:433-436 | on the hour the spoken 12-hour time is the dial hour's words and "o'clock" |
| Clock.SpokenQuarterPast | test/test_format.py:513-516 | at a quarter past it is "quarter past" and the dial hour |
| Clock.SpokenHalfPast | test/test_format.py:520-523 | at half past it is "half past" and the dial hour |
| Clock.SpokenQuarterTo | test/test_format.py:525-528 | at a quarter to it is "quarter to" and the next dial hour ("quarter to two" at 1:45) |
| Clock.SpokenOhMinutes | test/test_format.py:453-456 | a minute from one to nine is read after "oh" ("one oh two") |
| Clock.SpokenOtherMinutes | test/test_format.py:406-415 | any other minute is read as a number after the dial hour ("one twenty two") |
| Clock.Spoken24Hour | test/test_format.py:428-431 | the spoken 24-hour time is the hour in two digits, then "hundred" on the hour or the minute in two digits ("thirteen twenty two", "zero two hundred") |
| Clock.AmPmIgnoredOn24Hour | test/test_format.py:423-431 | on the 24-hour clock `use_ampm` changes nothing, spoken or digital |
| Clock.CoreIgnoresAmPm | test/test_format.py:414-418 | off the hour the spoken 12-hour time has words and does not depend on `use_ampm` |
| Clock.AmPmAppends | test/test_format.py:414-418 | off the hour `use_ampm` only appends " a.m."/" p.m." ("one twenty two p.m.") |
| Clock.OnTheHour | test/test_format.py:433-438 | on the hour the 12-hour speech is the hour's words then "o'clock", or the a.m./p.m. word in its place ("one p.m.") |
| Clock.NextHourOnDial | test/test_format.py:525-528 | the dial hour an hour later is one more, and one after twelve |
| Lists.Displays | test/test_format.py:642 | each item is shown in its display form, numbers included |
| Lists.JoinList | test/test_format.py:630-635 | nothing for None or an empty list, the item for one, "a conj b" for two |
| Lists.JoinManyCons | test/test_format.py:637-640 | with three or more items the first is followed by the separator and a space, then the rest |
| Lists.JoinListCons | test/test_format.py:637-642 | for three or more items the conjunction is used once, before the last item; every earlier item is followed by the separator |
| Lists.JoinWithLength | test/test_format.py:637-640 | a joined string is as long as its pieces plus one separator between each two |
| Lists.JoinListLength | test/test_format.py:637-642 | nothing is lost or added: the length is the items' lengths, a separator and space between the first items, and the conjunction between spaces once |
| Durations.Decompose | test/test_format.py:611-622 | the days, hours, minutes and seconds are in range and add up to the total |
| Durations.DecomposeSpan | test/test_format.py:611-622 | a span in range is the only one that adds up to its total, so the breakdown is unique |
| Durations.FromSeconds | test/test_format.py:623-625 | `timedelta(seconds=n)` keeps under a day in its seconds field |
| Durations.CountWords | test/test_format.py:611-622 | a count in words is what `pronounce_number` says for it |
| Durations.UnitPhrase | test/test_format.py:611-612 | the unit is singular exactly for a count of one ("one second", "three seconds") |
| Durations.AddUnitAppends | test/test_format.py:614-619 | adding a unit appends its phrase after a space when it is not zero, and nothing when it is |
| Durations.AddUnitAfterDays | test/test_format.py:620-621 | after a day phrase further units are appended to the smaller units |
| Durations.AfterDaysAsWords | test/test_format.py:620-621 | the day phrase's trailing space reads as an empty word: the double space of "five days  eighteen hours" |
| Durations.SpokenNamesNonZeroUnits | test/test_format.py:611-621 | the spoken form lists the non-zero units largest first, each in words and singular only for one; a day phrase is set off by two spaces |
| Durations.NiceDuration | test/test_format.py:611-625 | the digital form reads back as the whole number of seconds; the spoken form lists the non-zero units largest first, each in words, a day phrase set off by two spaces |
| Durations.TimeDeltaAsSeconds | test/test_format.py:623-625 | a timedelta renders exactly as its number of seconds |
| Durations.ReadTwoFields | test/test_format.py:613-616 | "M:SS" reads back as minutes * 60 + seconds |
| Durations.ReadThreeFields | test/test_format.py:617-620 | "H:MM:SS" whose fields read h, m and s reads back as (h * 60 + m) * 60 + s |
| Durations.ReadBackDays | test/test_format.py:622-625 | a digital form with a day field reads back as its total |
| Durations.ReadBackHours | test/test_format.py:617-620 | a digital form from an hour up to a day reads back as its total |
| Durations.ReadBackMinutes | test/test_format.py:613-616 | a digital form below an hour reads back as its total |
| Durations.DigitalReadsBack | test/test_format.py:613-625 | the digital form always reads back as the duration it renders ("1:23:20" is 5000, "5d 18:53:20" is 500000) |
| Durations.CoarsestUnit | test/test_format.py:646-683 | the unit is the coarsest one of which the distance holds a whole, seconds below a minute |
| Durations.RoundedCount | test/test_format.py:653-662 | the count is the nearest whole number of units, halves rounded up (2h27m is "2 hours", 3d20h is "4 days") |
| Durations.RelativeCountIsNearest | test/test_format.py:646-683 | a distance of at least a second never reads as zero of its unit, and the count is within half a unit of it |
| Durations.NiceRelativeTime | test/test_format.py:646-683 | the text is the rounded count in digits, reading back as that count, then the coarsest unit's name, plural unless the count is one; two distinct instants never give a count of zero |
| Durations.RelativeTimeSymmetric | test/test_format.py:646-683 | which of the two instants comes first does not change the text |
| Registry.Primary | test/test_format.py:42-50 | the primary part of a code is its prefix up to the first '-' ("en" for "en-us") |
| Registry.PrimaryIdempotent | test/test_format.py:42-50 | taking the primary part twice changes nothing |
| Registry.Loaded | test/test_format.py:42-43 | after loading, the language is loaded and nothing else is added or dropped |
| Registry.LoadIdempotent | test/test_parse.py:32-35 | loading a language twice is loading it once |
| Registry.LoadedKeepsNoDuplicates | test/test_parse.py:32-35 | no language is ever loaded twice |
| Registry.Removed | test/test_parse.py:37-39 | unloading drops exactly that language |
| Registry.RemovedKeepsNoDuplicates | test/test_parse.py:37-39 | dropping a language keeps the rest free of repeats |
| Registry.Load | test/test_parse.py:34 | `load_language` fails exactly for an unsupported language; otherwise its primary code is added and the default is untouched |
| Registry.LoadAllContents | test/test_format.py:42-43 | after `load_languages` of supported codes exactly the earlier languages and the codes' primary parts are loaded |
| Registry.SetDefault | test/test_format.py:46 | `set_default_lang` fails unless the code's language is loaded; otherwise only the default changes, to the code |
| Registry.Unload | test/test_format.py:48-50 | `unload_language` drops exactly the code's primary language, the others keeping their order; when the default was that language the first language still loaded becomes the default, or there is none; otherwise the default stays |
| Registry.UnloadAll | test/test_format.py:50 | after unloading a list of codes exactly the languages named by none of them remain, and a default none of them names stays the default |
| Registry.LoadConsistent | test/test_parse.py:32-35 | loading keeps the registry consistent (supported, no repeats, default loaded) |
| Registry.SetDefaultConsistent | test/test_format.py:46 | setting the default keeps the registry consistent |
| Registry.UnloadConsistent | test/test_format.py:48-50 | unloading keeps the registry consistent: the default moves to a loaded language or goes |
| Registry.LanguageRegistry.LoadLanguage | test/test_parse.py:34 | the object's state after `load_language` is `Load` of the state before, or unchanged on failure |
| Registry.LanguageRegistry.LoadLanguages | test/test_format.py:43 | succeeds exactly when every code is supported; the loaded list is `LoadAll` of the old one; the default is untouched |
| Registry.LanguageRegistry.SetDefaultLang | test/test_format.py:46 | succeeds exactly when the code's language is loaded, and then sets the default |
| Registry.LanguageRegistry.UnloadLanguage | test/test_parse.py:39 | the state after is `Unload` of the state before |
| Registry.LanguageRegistry.UnloadLanguages | test/test_format.py:50 | the state after is `UnloadAll` of the state before, the codes unloaded in order, so the default follows `Unload`'s rule at each step; exactly the languages named by none of the codes remain |
| Registry.LanguageRegistry.ResolveLang | test/test_format.py:410-411 | a call names its language or gets the default (`nice_time(dt)` equals `nice_time(dt, "en-us", ...)`) |
| Registry.StopsAtUnsupported | test/test_format.py:42-43 | loading a list stops at its first unsupported code, keeping what came before |
| RegistryExamples.FormatModuleLifecycle | test/test_format.py:42-50 | the set-up loads every supported language and makes "en-us" the default, which calls without a language then use; the tear-down leaves no language and no default |
| RegistryExamples.ParseModuleLifecycle | test/test_parse.py:32-39 | the parse tests' set-up loads English and makes "en" the default; the tear-down leaves no default |
| Extract.IndexOf | test/test_parse.py:233-243 | the position found holds the word and is its first occurrence; nothing is found exactly when the word is not in the table |
| Extract.ScaleWordIndex | test/test_parse.py:252-255 | a word found as a scale word is, in the singular, the table's word at the index found ("billions" is "billion") |
| Extract.ScaleWordIndexComplete | test/test_parse.py:252-255 | conversely every word of the scale table, singular or plural, is found as a scale word |
| Extract.PluralScaleIndex | test/test_parse.py:252-255 | a plural scale word reads as its singular |
| Extract.DigitsPart | test/test_parse.py:100-119 | the digits found are the word itself when it is all digits, or the word without its ordinal ending or percent sign ("31st", "100%") |
| Extract.DigitsPartComplete | test/test_parse.py:100-119 | conversely a digit string, bare or with one of the endings "st", "nd", "rd", "th", "%", always yields its digits |
| Extract.SmallEntry | test/test_parse.py:219 | each of "zero".."nineteen" reads as its value |
| Extract.TensEntry | test/test_parse.py:233 | each of "twenty".."ninety" reads as its value |
| Extract.Classify | test/test_parse.py:215-298 | tens words read 20..90, unit words 1..9, teens 10..19, scale words at least a thousand |
| Extract.Tokens | test/test_parse.py:215-298 | one reading per word |
| Extract.TokensAt | test/test_parse.py:215-298 | each word of a text is read on its own |
| Extract.TokensOfReadings | test/test_parse.py:215-298 | a word list whose words each read as a given token reads as that token list |
| Extract.FollowsOnlyNumbers | test/test_parse.py:899-906 | only number words other than "zero" continue a run, and after a unit or teen word only "hundred" or a scale word does ("one two three" is three numbers) |
| Extract.AddValue | test/test_parse.py:233-246 | within a run a unit, teen, tens word or digit string adds its value to the group in progress, and "hundred" multiplies that group by a hundred (a bare "hundred" is 100) |
| Extract.AddScaleValue | test/test_parse.py:252-257 | a scale word closes the group in progress, leaving a multiple of the scale no smaller than the run was ("two hundred thousand") |
| Extract.ExtractNumber | test/test_parse.py:286-293 | `extract_number` is nothing (the source's False) exactly when no number is found, otherwise the first one found |
| Extract.ScanEmptyIff | test/test_parse.py:286-293 | a text yields no number exactly when none of its words is a number word ("fraggle" nothing, "fraggle zero" 0) |
| Extract.SplitsWhenNotFollowing | test/test_parse.py:910-913 | a number word that cannot continue a run closes it and starts another ("two beers for two bears") |
| Extract.SignNegatesRun | test/test_parse.py:258-259 | a sign word in front of a run negates that number and nothing after it |
| Extract.SignWordNegates | test/test_parse.py:258-259 | "minus"/"negative" before a number word reads that number negated ("minus 2" is -2, "negative seventy" -70) |
| Extract.CaseInsensitive | test/test_parse.py:234-239 | reading ignores letter case ("Twenty two" reads as "twenty two") |
| Extract.LoneDigitString | test/test_parse.py:292-293 | a digit string standing alone reads as its value ("grobo 0" reads 0) |
| Extract.OrdinaryWord | test/test_parse.py:286-287 | a word in no table, none of the fixed words and without digits reads as an ordinary word ("fraggle") |
| Extract.DigitWordReading | test/test_parse.py:829-830 | a string of digits reads as the number it spells, under either scale |
| ReadBack.SpelledInLetters | test/test_parse.py:233 | every word of a one-group reading ("twenty", "hundred", "and", "minus", ...) is spelled in lower-case letters, so splitting and lower-casing the text give back its words |
| ReadBack.ClassifiesAs | test/test_parse.py:233-242 | the reader takes each such word as the token for its value: "six" a unit 6, "sixty" tens 60, "hundred", "and", and "minus" a sign |
| ReadBack.TextReadsAsTokens | test/test_parse.py:233-239 | the text of a group of those words reaches the reader as exactly their tokens, on either scale |
| ReadBack.ScanSubHundredAfter | test/test_parse.py:242 | after "hundred" the words of 1..99 add their value to the group ("six hundred sixty six" is 600 + 66) |
| ReadBack.ScanSubHundred | test/test_parse.py:233 | the words of 1..99 read as that number, negated after a sign word |
| ReadBack.ScanSubThousand | test/test_parse.py:240-242 | the words of 1..999, "and" included, read as that number, negated after a sign word |
| ReadBack.ScanHundredsAnd | test/test_parse.py:242 | the unit word, "hundred", "and" and the words of 1..99 read as 100 * unit + the rest: the "and" is passed over |
| ReadBack.ScanMinusSubThousand | test/test_parse.py:258-259 | "minus" and the words of 1..999 read as the negated number |
| ReadBack.PronouncedAsGroup | test/test_format.py:135-152 | `pronounce_number` of a number from -999 to 999 other than 0 is that one group's words joined by single spaces |
| ReadBack.OneGroupReading | test/test_format.py:135-152 | a number from 1 to 999, or its negative, is in range and reads as one group, with "minus" in front when negative |
| ReadBack.ReadsOwnWords | test/test_parse.py:233-259 | `extract_numbers` reads the text `pronounce_number` gives for any n from -999 to 999 other than 0 as exactly [n]: "six hundred and sixty six" reads 666, "minus twenty seven" -27 |
| ContractionTable.WithoutApostrophe | test/test_parse.py:939-1068 | every contraction but "gonna", "gotta" and "whats" has an apostrophe: no other word without one is expanded |
| Normalize.ExpandContractions | test/test_parse.py:939-1068 | stage one: the result's words are the input's words, each contraction replaced by its expansion, in order, single-spaced |
| Normalize.ExpandAllKeeps | test/test_parse.py:1087-1088 | words that are not contractions are kept as they are |
| Normalize.ExpandAllSnoc | test/test_parse.py:939-1068 | the text is expanded word by word: the last word's expansion comes last |
| Normalize.NumbersToDigits | test/test_parse.py:809-846 | stage two: the result's words are what the number writer makes of the input's words, single-spaced |
| Normalize.DigitizeWritesInputWords | test/test_parse.py:870-896 | every word written as it is comes from the input (or is the held-back sign word) |
| Normalize.DigitizeReadsAsScan | test/test_parse.py:809-817 | the numbers stage two writes are, in order, exactly the numbers the number reader finds in the same words |
| Normalize.WritesExtractedNumbers | test/test_parse.py:809-830 | `normalize` writes for a text exactly the numbers `extract_numbers` finds in it |
| Normalize.WrittenNumberReadsBack | test/test_parse.py:829-830 | a number written as digits reads back as the same number |
| Normalize.DropArticlesKeeps | test/test_parse.py:65-71 | dropping articles keeps only non-articles of the input, and every non-article of the input |
| Normalize.RemoveArticles | test/test_parse.py:65-71 | stage three: the result's words are the input's words that are not "the", "a" or "an", in order |
| Normalize.NormalizeByWords | test/test_parse.py:862-868 | the split/join between the stages changes nothing: the result is the expanded words, numbers written, articles dropped if asked, joined by single spaces |
| Normalize.RemovesExactlyArticles | test/test_parse.py:65-74 | removing articles leaves exactly the words of the plain result that are not "the", "a" or "an", in order |
| Normalize.NormalizeSingleSpaced | test/test_parse.py:862-868 | the result never has two spaces in a row nor a leading or trailing space |
| Normalize.DigitizeWithoutNumbers | test/test_parse.py:841-846 | words with no number word among them are written back unchanged |
| Normalize.DigitWordsWithoutNumbers | test/test_parse.py:841-846 | stage two leaves a word list without number words as it is |
| Normalize.WithoutNumberWords | test/test_parse.py:939-1068 | a text without number words is only expanded, articles dropped if asked, and single-spaced |
| Normalize.PlainTextUnchanged | test/test_parse.py:72-74 | text with neither contractions nor number words only has its spaces collapsed ("this is an extra test") |
| ClockExamples.Time1322Speech12 | test/test_format.py:414 | the asserted case holds: `NiceTime(ClockTime(13, 22), true, false, false) == "one twenty two"` |
| ClockExamples.Time1322Speech12AmPm | test/test_format.py:417 | the asserted case holds: `NiceTime(ClockTime(13, 22), true, false, true) == "one twenty two p.m."` |
| ClockExamples.Time1322Digits12 | test/test_format.py:419 | the asserted case holds: `NiceTime(ClockTime(13, 22), false, false, false) == "1:22"` |
| ClockExamples.Time1322Digits12AmPm | test/test_format.py:421 | the asserted case holds: `NiceTime(ClockTime(13, 22), false, false, true) == "1:22 PM"` |
| ClockExamples.Time1322Digits24 | test/test_format.py:423 | the asserted case holds: `NiceTime(ClockTime(13, 22), false, true, false) == "13:22"` |
| ClockExamples.Time1322Digits24AmPm | test/test_format.py:425 | the asserted case holds: `NiceTime(ClockTime(13, 22), false, true, true) == "13:22"` |
| ClockExamples.Time1322Speech24AmPm | test/test_format.py:428 | the asserted case holds: `NiceTime(ClockTime(13, 22), true, true, true) == "thirteen twenty two"` |
| ClockExamples.Time1322Speech24 | test/test_format.py:430 | the asserted case holds: `NiceTime(ClockTime(13, 22), true, true, false) == "thirteen twenty two"` |
| ClockExamples.Time1300Speech12 | test/test_format.py:435 | the asserted case holds: `NiceTime(ClockTime(13, 0), true, false, false) == "one o'clock"` |
| ClockExamples.Time1300Speech12AmPm | test/test_format.py:437 | the asserted case holds: `NiceTime(ClockTime(13, 0), true, false, true) == "one p.m."` |
| ClockExamples.Time1300Digits12 | test/test_format.py:439 | the asserted case holds: `NiceTime(ClockTime(13, 0), false, false, false) == "1:00"` |
| ClockExamples.Time1300Digits12AmPm | test/test_format.py:441 | the asserted case holds: `NiceTime(ClockTime(13, 0), false, false, true) == "1:00 PM"` |
| ClockExamples.Time1300Digits24 | test/test_format.py:443 | the asserted case holds: `NiceTime(ClockTime(13, 0), false, true, false) == "13:00"` |
| ClockExamples.Time1300Digits24AmPm | test/test_format.py:445 | the asserted case holds: `NiceTime(ClockTime(13, 0), false, true, true) == "13:00"` |
| ClockExamples.Time1300Speech24AmPm | test/test_format.py:448 | the asserted case holds: `NiceTime(ClockTime(13, 0), true, true, true) == "thirteen hundred"` |
| ClockExamples.Time1300Speech24 | test/test_format.py:450 | the asserted case holds: `NiceTime(ClockTime(13, 0), true, true, false) == "thirteen hundred"` |
| ClockExamples.Time1302Speech12 | test/test_format.py:455 | the asserted case holds: `NiceTime(ClockTime(13, 2), true, false, false) == "one oh two"` |
| ClockExamples.Time1302Speech12AmPm | test/test_format.py:457 | the asserted case holds: `NiceTime(ClockTime(13, 2), true, false, true) == "one oh two p.m."` |
| ClockExamples.Time1302Digits12 | test/test_format.py:459 | the asserted case holds: `NiceTime(ClockTime(13, 2), false, false, false) == "1:02"` |
| ClockExamples.Time1302Digits12AmPm | test/test_format.py:461 | the asserted case holds: `NiceTime(ClockTime(13, 2), false, false, true) == "1:02 PM"` |
| ClockExamples.Time1302Digits24 | test/test_format.py:463 | the asserted case holds: `NiceTime(ClockTime(13, 2), false, true, false) == "13:02"` |
| ClockExamples.Time1302Digits24AmPm | test/test_format.py:465 | the asserted case holds: `NiceTime(ClockTime(13, 2), false, true, true) == "13:02"` |
| ClockExamples.Time1302Speech24AmPm | test/test_format.py:468 | the asserted case holds: `NiceTime(ClockTime(13, 2), true, true, true) == "thirteen zero two"` |
| ClockExamples.Time1302Speech24 | test/test_format.py:470 | the asserted case holds: `NiceTime(ClockTime(13, 2), true, true, false) == "thirteen zero two"` |
| ClockExamples.Time0002Speech12 | test/test_format.py:475 | the asserted case holds: `NiceTime(ClockTime(0, 2), true, false, false) == "twelve oh two"` |
| ClockExamples.Time0002Speech12AmPm | test/test_format.py:477 | the asserted case holds: `NiceTime(ClockTime(0, 2), true, false, true) == "twelve oh two a.m."` |
| ClockExamples.Time0002Digits12 | test/test_format.py:479 | the asserted case holds: `NiceTime(ClockTime(0, 2), false, false, false) == "12:02"` |
| ClockExamples.Time0002Digits12AmPm | test/test_format.py:481 | the asserted case holds: `NiceTime(ClockTime(0, 2), false, false, true) == "12:02 AM"` |
| ClockExamples.Time0002Digits24 | test/test_format.py:483 | the asserted case holds: `NiceTime(ClockTime(0, 2), false, true, false) == "00:02"` |
| ClockExamples.Time0002Digits24AmPm | test/test_format.py:485 | the asserted case holds: `NiceTime(ClockTime(0, 2), false, true, true) == "00:02"` |
| ClockExamples.Time0002Speech24AmPm | test/test_format.py:488 | the asserted case holds: `NiceTime(ClockTime(0, 2), true, true, true) == "zero zero zero two"` |
| ClockExamples.Time0002Speech24 | test/test_format.py:490 | the asserted case holds: `NiceTime(ClockTime(0, 2), true, true, false) == "zero zero zero two"` |
| ClockExamples.Time0102Speech12 | test/test_format.py:495 | the asserted case holds: `NiceTime(ClockTime(1, 2), true, false, false) == "one oh two"` |
| ClockExamples.Time0102Speech12AmPm | test/test_format.py:497 | the asserted case holds: `NiceTime(ClockTime(1, 2), true, false, true) == "one oh two a.m."` |
| ClockExamples.Time0102Digits12 | test/test_format.py:499 | the asserted case holds: `NiceTime(ClockTime(1, 2), false, false, false) == "1:02"` |
| ClockExamples.Time0102Digits12AmPm | test/test_format.py:501 | the asserted case holds: `NiceTime(ClockTime(1, 2), false, false, true) == "1:02 AM"` |
| ClockExamples.Time0102Digits24 | test/test_format.py:503 | the asserted case holds: `NiceTime(ClockTime(1, 2), false, true, false) == "01:02"` |
| ClockExamples.Time0102Digits24AmPm | test/test_format.py:505 | the asserted case holds: `NiceTime(ClockTime(1, 2), false, true, true) == "01:02"` |
| ClockExamples.Time0102Speech24AmPm | test/test_format.py:508 | the asserted case holds: `NiceTime(ClockTime(1, 2), true, true, true) == "zero one zero two"` |
| ClockExamples.Time0102Speech24 | test/test_format.py:510 | the asserted case holds: `NiceTime(ClockTime(1, 2), true, true, false) == "zero one zero two"` |
| ClockExamples.Time1215Speech12 | test/test_format.py:515 | the asserted case holds: `NiceTime(ClockTime(12, 15), true, false, false) == "quarter past twelve"` |
| ClockExamples.Time1215Speech12AmPm | test/test_format.py:517 | the asserted case holds: `NiceTime(ClockTime(12, 15), true, false, true) == "quarter past twelve p.m."` |
| ClockExamples.Time0530Speech12AmPm | test/test_format.py:522 | the asserted case holds: `NiceTime(ClockTime(5, 30), true, false, true) == "half past five a.m."` |
| ClockExamples.Time0145Speech12 | test/test_format.py:527 | the asserted case holds: `NiceTime(ClockTime(1, 45), true, false, false) == "quarter to two"` |
| DurationsExamples.Spoken1 | test/test_format.py:611 | the asserted case holds: `NiceDuration(Secs(1), true) == "one second"` |
| DurationsExamples.Spoken3 | test/test_format.py:612 | the asserted case holds: `NiceDuration(Secs(3), true) == "three seconds"` |
| DurationsExamples.Spoken61 | test/test_format.py:614 | the asserted case holds: `NiceDuration(Secs(61), true) == "one minute one second"` |
| DurationsExamples.Spoken5000 | test/test_format.py:616 | the asserted case holds: `NiceDuration(Secs(5000), true) == "one hour twenty three minutes twenty seconds"` |
| DurationsExamples.Spoken50000 | test/test_format.py:619 | the asserted case holds: `NiceDuration(Secs(50000), true) == "thirteen hours fifty three minutes twenty seconds"` |
| DurationsExamples.Spoken500000 | test/test_format.py:622 | the asserted case holds: `NiceDuration(Secs(500000), true) == "five days  eighteen hours fifty three minutes twenty seconds"` |
| DurationsExamples.Digital1 | test/test_format.py:613 | the asserted case holds: `NiceDuration(Secs(1), false) == "0:01"` |
| DurationsExamples.Digital61 | test/test_format.py:615 | the asserted case holds: `NiceDuration(Secs(61), false) == "1:01"` |
| DurationsExamples.Digital5000 | test/test_format.py:618 | the asserted case holds: `NiceDuration(Secs(5000), false) == "1:23:20"` |
| DurationsExamples.Digital50000 | test/test_format.py:621 | the asserted case holds: `NiceDuration(Secs(50000), false) == "13:53:20"` |
| DurationsExamples.Digital500000 | test/test_format.py:624 | the asserted case holds: `NiceDuration(Secs(500000), false) == "5d 18:53:20"` |
| DurationsExamples.DigitalTimeDelta | test/test_format.py:625-627 | the asserted case holds: `NiceDuration(Delta(FromSeconds(500000)), false) == "5d 18:53:20"` |
| DurationsExamples.RelativeTwoHours | test/test_format.py:650-653 | the asserted case holds: `NiceRelativeTime(base + 7200, base) == "2 hours"` |
| DurationsExamples.RelativeTwoHoursTwentySeven | test/test_format.py:655-658 | the asserted case holds: `NiceRelativeTime(base + 8820, base) == "2 hours"` |
| DurationsExamples.RelativeFortySevenSeconds | test/test_format.py:660-663 | the asserted case holds: `NiceRelativeTime(base + 47, base) == "47 seconds"` |
| DurationsExamples.RelativeThreeDays | test/test_format.py:665-668 | the asserted case holds: `NiceRelativeTime(base + 259200, base) == "3 days"` |
| DurationsExamples.RelativeThreeDaysTwentyHours | test/test_format.py:670-673 | the asserted case holds: `NiceRelativeTime(base + 331200, base) == "4 days"` |
| DurationsExamples.RelativeNineHundredFiftySevenDays | test/test_format.py:675-678 | the asserted case holds: `NiceRelativeTime(base + 82692012, base) == "957 days"` |
| ExtractExamples.ExtractThisIsThe1st | test/test_parse.py:100-101 | the asserted case holds: `ExtractNumber("this is the 1st", true) == Some(1)` |
| ExtractExamples.ExtractThisIsThe2nd | test/test_parse.py:102-103 | the asserted case holds: `ExtractNumber("this is the 2nd", true) == Some(2)` |
| ExtractExamples.ExtractThisIsThe3rd | test/test_parse.py:104-105 | the asserted case holds: `ExtractNumber("this is the 3rd", true) == Some(3)` |
| ExtractExamples.ExtractThisIsThe4th | test/test_parse.py:106-107 | the asserted case holds: `ExtractNumber("this is the 4th", true) == Some(4)` |
| ExtractExamples.ExtractThisIsThe7thTest | test/test_parse.py:108-111 | the asserted case holds: `ExtractNumber("this is the 7th test", true) == Some(7)` |
| ExtractExamples.ExtractThisIsTheNthTest | test/test_parse.py:112 | the asserted case holds: `ExtractNumber("this is the nth test", true) == None` |
| ExtractExamples.ExtractThisIsThe1stTest | test/test_parse.py:113 | the asserted case holds: `ExtractNumber("this is the 1st test", true) == Some(1)` |
| ExtractExamples.ExtractThisIsThe2ndTest | test/test_parse.py:114 | the asserted case holds: `ExtractNumber("this is the 2nd test", true) == Some(2)` |
| ExtractExamples.ExtractThisIsThe3rdTest | test/test_parse.py:115 | the asserted case holds: `ExtractNumber("this is the 3rd test", true) == Some(3)` |
| ExtractExamples.ExtractThisIsThe31stTest | test/test_parse.py:116 | the asserted case holds: `ExtractNumber("this is the 31st test", true) == Some(31)` |
| ExtractExamples.ExtractThisIsThe32ndTest | test/test_parse.py:117 | the asserted case holds: `ExtractNumber("this is the 32nd test", true) == Some(32)` |
| ExtractExamples.ExtractThisIsThe33rdTest | test/test_parse.py:118 | the asserted case holds: `ExtractNumber("this is the 33rd test", true) == Some(33)` |
| ExtractExamples.ExtractThisIsThe34thTest | test/test_parse.py:119 | the asserted case holds: `ExtractNumber("this is the 34th test", true) == Some(34)` |
| ExtractExamples.ExtractThisIsTheFirstTest | test/test_parse.py:124-127 | the asserted case holds: `ExtractNumber("this is the first test", true) == None` |
| ExtractExamples.ExtractThisIsSecondTest | test/test_parse.py:132-133 | the asserted case holds: `ExtractNumber("this is second test", true) == None` |
| ExtractExamples.ExtractRemindMeInASecond | test/test_parse.py:136-139 | the asserted case holds: `ExtractNumber("remind me in a second", true) == None` |
| ExtractExamples.ExtractThisIsTheThirdTest | test/test_parse.py:146-147 | the asserted case holds: `ExtractNumber("this is the third test", true) == None` |
| ExtractExamples.ExtractOneThirdOfACup | test/test_parse.py:153-154 | the asserted case holds: `ExtractNumber("one third of a cup", true) == Some(1)` |
| ExtractExamples.Extract2Fifths | test/test_parse.py:165-166 | the asserted case holds: `ExtractNumber("2 fifths", true) == Some(2)` |
| ExtractExamples.ExtractSixthThird | test/test_parse.py:171 | the asserted case holds: `ExtractNumber("sixth third", true) == None` |
| ExtractExamples.ExtractThirtySecond | test/test_parse.py:172-173 | the asserted case holds: `ExtractNumber("thirty second", true) == Some(30)` |
| ExtractExamples.ExtractThisIsTheBillionthTest | test/test_parse.py:184-185 | the asserted case holds: `ExtractNumber("this is the billionth test", true) == None` |
| ExtractExamples.ExtractThisIsTheBillionthTestLongScale | test/test_parse.py:192-194 | the asserted case holds: `ExtractNumber("this is the billionth test", false) == None` |
| ExtractExamples.ExtractYouAreTheSecondOne | test/test_parse.py:202-203 | the asserted case holds: `ExtractNumber("you are the second one", true) == Some(1)` |
| ExtractExamples.ExtractYouAreThe1stOne | test/test_parse.py:206-207 | the asserted case holds: `ExtractNumber("you are the 1st one", true) == Some(1)` |
| ExtractExamples.ExtractYouAreThe2ndOne | test/test_parse.py:208-209 | the asserted case holds: `ExtractNumber("you are the 2nd one", true) == Some(2)` |
| ExtractExamples.ExtractYouAreThe3rdOne | test/test_parse.py:210-211 | the asserted case holds: `ExtractNumber("you are the 3rd one", true) == Some(3)` |
| ExtractExamples.ExtractYouAreThe8thOne | test/test_parse.py:212-213 | the asserted case holds: `ExtractNumber("you are the 8th one", true) == Some(8)` |
| ExtractExamples.ExtractThisIs2Test | test/test_parse.py:217 | the asserted case holds: `ExtractNumber("this is 2 test", true) == Some(2)` |
| ExtractExamples.ExtractThisIsTestNumber4 | test/test_parse.py:218 | the asserted case holds: `ExtractNumber("this is test number 4", true) == Some(4)` |
| ExtractExamples.ExtractThreeCups | test/test_parse.py:219 | the asserted case holds: `ExtractNumber("three cups", true) == Some(3)` |
| ExtractExamples.ExtractTwentyTwo | test/test_parse.py:233 | the asserted case holds: `ExtractNumber("twenty two", true) == Some(22)` |
| ExtractExamples.ExtractTwentyTwoWithALeading | test/test_parse.py:234-235 | the asserted case holds: `ExtractNumber("Twenty two with a leading capital letter", true) == Some(22)` |
| ExtractExamples.ExtractTwentyTwoWithTwoCapital | test/test_parse.py:236-237 | the asserted case holds: `ExtractNumber("twenty Two with Two capital letters", true) == Some(22)` |
| ExtractExamples.ExtractTwentyTwoWithMixedCapital | test/test_parse.py:238-239 | the asserted case holds: `ExtractNumber("twenty Two with mixed capital letters", true) == Some(22)` |
| ExtractExamples.ExtractTwoHundred | test/test_parse.py:240 | the asserted case holds: `ExtractNumber("two hundred", true) == Some(200)` |
| ExtractExamples.ExtractNineThousand | test/test_parse.py:241 | the asserted case holds: `ExtractNumber("nine thousand", true) == Some(9000)` |
| ExtractExamples.ExtractSixHundredSixtySix | test/test_parse.py:242 | the asserted case holds: `ExtractNumber("six hundred sixty six", true) == Some(666)` |
| ExtractExamples.ExtractTwoMillion | test/test_parse.py:243 | the asserted case holds: `ExtractNumber("two million", true) == Some(2000000)` |
| ExtractExamples.ExtractTwoMillionFiveHundredThousand | test/test_parse.py:244-245 | the asserted case holds: `ExtractNumber("two million five hundred thousand tons of spinning metal", true) == Some(2500000)` |
| ExtractExamples.ExtractSixTrillion | test/test_parse.py:246 | the asserted case holds: `ExtractNumber("six trillion", true) == Some(6000000000000)` |
| ExtractExamples.ExtractSixTrillionLongScale | test/test_parse.py:247-248 | the asserted case holds: `ExtractNumber("six trillion", false) == Some(6000000000000000000)` |
| ExtractExamples.ExtractBillionsOfYearsOlder | test/test_parse.py:252-253 | the asserted case holds: `ExtractNumber("billions of years older", true) == Some(1000000000)` |
| ExtractExamples.ExtractBillionsOfYearsOlderLongScale | test/test_parse.py:254-256 | the asserted case holds: `ExtractNumber("billions of years older", false) == Some(1000000000000)` |
| ExtractExamples.ExtractOneHundredThousand | test/test_parse.py:257 | the asserted case holds: `ExtractNumber("one hundred thousand", true) == Some(100000)` |
| ExtractExamples.ExtractMinus2 | test/test_parse.py:258 | the asserted case holds: `ExtractNumber("minus 2", true) == Some(-2)` |
| ExtractExamples.ExtractNegativeSeventy | test/test_parse.py:259 | the asserted case holds: `ExtractNumber("negative seventy", true) == Some(-70)` |
| ExtractExamples.ExtractThousandMillion | test/test_parse.py:260 | the asserted case holds: `ExtractNumber("thousand million", true) == Some(1000000000)` |
| ExtractExamples.ExtractTwentyThousand | test/test_parse.py:264 | the asserted case holds: `ExtractNumber("twenty thousand", true) == Some(20000)` |
| ExtractExamples.ExtractFiftyMillion | test/test_parse.py:265 | the asserted case holds: `ExtractNumber("fifty million", true) == Some(50000000)` |
| ExtractExamples.ExtractEightHundredTrillionTwoHundred | test/test_parse.py:279-280 | the asserted case holds: `ExtractNumber("eight hundred trillion two hundred                                         fifty seven", true) == Some(800000000000257)` |
| ExtractExamples.ExtractTheTennisPlayerIsFast | test/test_parse.py:286 | the asserted case holds: `ExtractNumber("The tennis player is fast", true) == None` |
| ExtractExamples.ExtractFraggle | test/test_parse.py:287 | the asserted case holds: `ExtractNumber("fraggle", true) == None` |
| ExtractExamples.ExtractFraggleZero | test/test_parse.py:289-290 | the asserted case holds: `ExtractNumber("fraggle zero", true) == Some(0)` |
| ExtractExamples.ExtractGrobo0 | test/test_parse.py:292-293 | the asserted case holds: `ExtractNumber("grobo 0", true) == Some(0)` |
| ExtractExamples.ExtractACoupleOfBeers | test/test_parse.py:295 | the asserted case holds: `ExtractNumber("a couple of beers", true) == Some(2)` |
| ExtractExamples.ExtractACoupleHundredBeers | test/test_parse.py:296 | the asserted case holds: `ExtractNumber("a couple hundred beers", true) == Some(200)` |
| ExtractExamples.ExtractACoupleThousandBeers | test/test_parse.py:297 | the asserted case holds: `ExtractNumber("a couple thousand beers", true) == Some(2000)` |
| ExtractExamples.ExtractTotally100Percent | test/test_parse.py:298 | the asserted case holds: `ExtractNumber("totally 100%", true) == Some(100)` |
| ExtractExamples.ExtractAllThisIsAOneTwo | test/test_parse.py:899-900 | the asserted case holds: `ExtractNumbers("this is a one two three  test", true) == [1, 2, 3]` |
| ExtractExamples.ExtractAllItApossAFourFiveSix | test/test_parse.py:901-902 | the asserted case holds: `ExtractNumbers("it's  a four five six  test", true) == [4, 5, 6]` |
| ExtractExamples.ExtractAllThisIsATenEleven | test/test_parse.py:903-904 | the asserted case holds: `ExtractNumbers("this is a ten eleven twelve  test", true) == [10, 11, 12]` |
| ExtractExamples.ExtractAllThisIsAOneTwenty | test/test_parse.py:905-906 | the asserted case holds: `ExtractNumbers("this is a one twenty one  test", true) == [1, 21]` |
| ExtractExamples.ExtractAll1DogCommaSevenPigsCommaMacdonald | test/test_parse.py:907-909 | the asserted case holds: `ExtractNumbers("1 dog, seven pigs, macdonald had a farm, 3 times 5 macarena", true) == [1, 7, 3, 5]` |
| ExtractExamples.ExtractAllTwoBeersForTwoBears | test/test_parse.py:910-911 | the asserted case holds: `ExtractNumbers("two beers for two bears", true) == [2, 2]` |
| ExtractExamples.ExtractAllTwenty20Twenty | test/test_parse.py:912-913 | the asserted case holds: `ExtractNumbers("twenty 20 twenty", true) == [20, 20, 20]` |
| ExtractExamples.ExtractAllTwenty2022 | test/test_parse.py:914-915 | the asserted case holds: `ExtractNumbers("twenty 20 22", true) == [20, 20, 22]` |
| ExtractExamples.ExtractAllTwentyTwentyTwoTwenty | test/test_parse.py:916-917 | the asserted case holds: `ExtractNumbers("twenty twenty two twenty", true) == [20, 22, 20]` |
| ExtractExamples.ExtractAllTwenty2 | test/test_parse.py:918-919 | the asserted case holds: `ExtractNumbers("twenty 2", true) == [22]` |
| ExtractExamples.ExtractAllTwenty20Twenty2 | test/test_parse.py:920-921 | the asserted case holds: `ExtractNumbers("twenty 20 twenty 2", true) == [20, 20, 22]` |
| ExtractExamples.ExtractAllSixTrillion | test/test_parse.py:925-926 | the asserted case holds: `ExtractNumbers("six trillion", true) == [6000000000000]` |
| ExtractExamples.ExtractAllSixTrillionLongScale | test/test_parse.py:927-928 | the asserted case holds: `ExtractNumbers("six trillion", false) == [6000000000000000000]` |
| ExtractExamples.ExtractAllTwoPigsAndSixTrillion | test/test_parse.py:929-930 | the asserted case holds: `ExtractNumbers("two pigs and six trillion bacteria", true) == [2, 6000000000000]` |
| ExtractExamples.ExtractAllTwoPigsAndSixTrillionLongScale | test/test_parse.py:931-932 | the asserted case holds: `ExtractNumbers("two pigs and six trillion bacteria", false) == [2, 6000000000000000000]` |
| ListsExamples.JoinNothing | test/test_format.py:630-631 | the asserted case holds: `JoinList(Some([]), "and", ",") == ""` |
| ListsExamples.JoinOne | test/test_format.py:633 | the asserted case holds: `JoinList(Some([Str("a")]), "and", ",") == "a"` |
| ListsExamples.JoinTwo | test/test_format.py:634-635 | the asserted case holds: `JoinList(Some([Str("a"), Str("b")]), "or", ",") == "a or b"` |
| ListsExamples.JoinThree | test/test_format.py:637-639 | the asserted case holds: `JoinList(Some([Str("a"), Str("b"), Str("c")]), "or", ";") == "a; b or c"` |
| ListsExamples.JoinFour | test/test_format.py:640 | the asserted case holds: `JoinList(Some([Str("a"), Str("b"), Str("c"), Str("d")]), "or", ",") == "a, b, c or d"` |
| ListsExamples.JoinMixed | test/test_format.py:642 | the asserted case holds: `JoinList(Some([Num(1), Str("b"), Num(3), Str("d")]), "or", ",") == "1, b, 3 or d"` |
| NormalizeExamples.NormalizeThisIsATest | test/test_parse.py:66-67 | the asserted case holds: `Normalize.Normalize("this is a test", true) == "this is test"` |
| NormalizeExamples.NormalizeThisIsTheTest | test/test_parse.py:68-69 | the asserted case holds: `Normalize.Normalize("this is the test", true) == "this is test"` |
| NormalizeExamples.NormalizeAndAnotherTest | test/test_parse.py:70-71 | the asserted case holds: `Normalize.Normalize("and another test", true) == "and another test"` |
| NormalizeExamples.NormalizeThisIsAnExtra | test/test_parse.py:72-74 | the asserted case holds: `Normalize.Normalize("this is an extra test", false) == "this is an extra test"` |
| NormalizeExamples.NormalizeRemindMeToDo | test/test_parse.py:810-811 | the asserted case holds: `Normalize.Normalize("remind me to do something at two to two", true) == "remind me to do something at 2 to 2"` |
| NormalizeExamples.NormalizeWhatTimeWillIt | test/test_parse.py:812-813 | the asserted case holds: `Normalize.Normalize("what time will it be in two minutes", true) == "what time will it be in 2 minutes"` |
| NormalizeExamples.NormalizeWholeHour | test/test_parse.py:841-842 | the asserted case holds: `Normalize.Normalize("whole hour", true) == "whole hour"` |
| NormalizeExamples.NormalizeHalfHour | test/test_parse.py:847-848 | the asserted case holds: `Normalize.Normalize("half hour", true) == "half hour"` |
| NormalizeExamples.NormalizeThisIsATestAgain | test/test_parse.py:863-864 | the asserted case holds: `Normalize.Normalize("  this   is  a    test", true) == "this is test"` |
| NormalizeExamples.NormalizeThisIsATestAgainAgain | test/test_parse.py:865-866 | the asserted case holds: `Normalize.Normalize("  this   is  a    test  ", true) == "this is test"` |
| NormalizeExamples.NormalizeThisIsOneTest | test/test_parse.py:867-868 | the asserted case holds: `Normalize.Normalize("  this   is  one    test", true) == "this is 1 test"` |
| NormalizeExamples.NormalizeItApossAFourFive | test/test_parse.py:873-874 | the asserted case holds: `Normalize.Normalize("  it's  a four five six  test", true) == "it is 4 5 6 test"` |
| NormalizeExamples.NormalizeItApossASevenEight | test/test_parse.py:875-876 | the asserted case holds: `Normalize.Normalize("it's  a seven eight nine test", true) == "it is 7 8 9 test"` |
| NormalizeExamples.NormalizeThatApossOneHundred | test/test_parse.py:889-890 | the asserted case holds: `Normalize.Normalize("that's one hundred", true) == "that is 100"` |
| NormalizeExamples.NormalizeThatApossOneAndA | test/test_parse.py:893-894 | the asserted case holds: `Normalize.Normalize("that's one and a half", true) == "that is 1 and half"` |
| NormalizeExamples.NormalizeAinApost | test/test_parse.py:940 | the asserted case holds: `Normalize.Normalize("ain't", true) == "is not"` |
| NormalizeExamples.NormalizeGonna | test/test_parse.py:948 | the asserted case holds: `Normalize.Normalize("gonna", true) == "going to"` |
| NormalizeExamples.NormalizeGotta | test/test_parse.py:949 | the asserted case holds: `Normalize.Normalize("gotta", true) == "got to"` |
| NormalizeExamples.NormalizeHadnApostHave | test/test_parse.py:951 | the asserted case holds: `Normalize.Normalize("hadn't have", true) == "had not have"` |
| NormalizeExamples.NormalizeIHavenApost | test/test_parse.py:969 | the asserted case holds: `Normalize.Normalize("I haven't", true) == "I have not"` |
| NormalizeExamples.NormalizeThatAposs | test/test_parse.py:1002 | the asserted case holds: `Normalize.Normalize("that's", true) == "that is"` |
| NormalizeExamples.NormalizeTheyWonApostHave | test/test_parse.py:1013 | the asserted case holds: `Normalize.Normalize("they won't have", true) == "they will not have"` |
| NormalizeExamples.NormalizeWhats | test/test_parse.py:1032 | the asserted case holds: `Normalize.Normalize("whats", true) == "what is"` |
| NormalizeExamples.NormalizeWhoAposdAposve | test/test_parse.py:1043 | the asserted case holds: `Normalize.Normalize("who'd've", true) == "who would have"` |
| NormalizeExamples.NormalizeWonApostAposve | test/test_parse.py:1054 | the asserted case holds: `Normalize.Normalize("won't've", true) == "will not have"` |
| NormalizeExamples.NormalizeYAposall | test/test_parse.py:1059 | the asserted case holds: `Normalize.Normalize("y'all", true) == "you all"` |
| NormalizeExamples.NormalizeIWouldnApostHave | test/test_parse.py:1073 | the asserted case holds: `Normalize.Normalize("I wouldn't have", true) == "I would not have"` |
| NormalizeExamples.NormalizeIHadnApostBeenThere | test/test_parse.py:1074-1075 | the asserted case holds: `Normalize.Normalize("I hadn't been there", true) == "I had not been there"` |
| NormalizeExamples.NormalizeWhatApossTheWeatherLike | test/test_parse.py:1085-1086 | the asserted case holds: `Normalize.Normalize("what's the weather like", true) == "what is weather like"` |
| NormalizeExamples.NormalizeWhats8Plus4 | test/test_parse.py:1090 | the asserted case holds: `Normalize.Normalize("whats 8 + 4", true) == "what is 8 + 4"` |
| NumeralExamples.Int0 | test/test_format.py:136 | the asserted case holds: `PronounceNumber(0, true, false) == Spelled("zero")` |
| NumeralExamples.Int1 | test/test_format.py:137 | the asserted case holds: `PronounceNumber(1, true, false) == Spelled("one")` |
| NumeralExamples.Int10 | test/test_format.py:138 | the asserted case holds: `PronounceNumber(10, true, false) == Spelled("ten")` |
| NumeralExamples.Int15 | test/test_format.py:139 | the asserted case holds: `PronounceNumber(15, true, false) == Spelled("fifteen")` |
| NumeralExamples.Int20 | test/test_format.py:140 | the asserted case holds: `PronounceNumber(20, true, false) == Spelled("twenty")` |
| NumeralExamples.Int27 | test/test_format.py:141 | the asserted case holds: `PronounceNumber(27, true, false) == Spelled("twenty seven")` |
| NumeralExamples.Int30 | test/test_format.py:142 | the asserted case holds: `PronounceNumber(30, true, false) == Spelled("thirty")` |
| NumeralExamples.Int33 | test/test_format.py:143 | the asserted case holds: `PronounceNumber(33, true, false) == Spelled("thirty three")` |
| NumeralExamples.Negative1 | test/test_format.py:146 | the asserted case holds: `PronounceNumber(-1, true, false) == Spelled("minus one")` |
| NumeralExamples.Negative10 | test/test_format.py:147 | the asserted case holds: `PronounceNumber(-10, true, false) == Spelled("minus ten")` |
| NumeralExamples.Negative15 | test/test_format.py:148 | the asserted case holds: `PronounceNumber(-15, true, false) == Spelled("minus fifteen")` |
| NumeralExamples.Negative20 | test/test_format.py:149 | the asserted case holds: `PronounceNumber(-20, true, false) == Spelled("minus twenty")` |
| NumeralExamples.Negative27 | test/test_format.py:150 | the asserted case holds: `PronounceNumber(-27, true, false) == Spelled("minus twenty seven")` |
| NumeralExamples.Negative30 | test/test_format.py:151 | the asserted case holds: `PronounceNumber(-30, true, false) == Spelled("minus thirty")` |
| NumeralExamples.Negative33 | test/test_format.py:152 | the asserted case holds: `PronounceNumber(-33, true, false) == Spelled("minus thirty three")` |
| NumeralExamples.Decimal0_05 | test/test_format.py:155 | the asserted case holds: `PronounceDecimal(Decimal(false, 0, [0, 5]), 2, true) == Spelled("zero point zero five")` |
| NumeralExamples.DecimalMinus0_05 | test/test_format.py:156 | the asserted case holds: `PronounceDecimal(Decimal(true, 0, [0, 5]), 2, true) == Spelled("minus zero point zero five")` |
| NumeralExamples.Decimal1_234 | test/test_format.py:157 | the asserted case holds: `PronounceDecimal(Decimal(false, 1, [2, 3, 4]), 2, true) == Spelled("one point two three")` |
| NumeralExamples.Decimal21_234 | test/test_format.py:159 | the asserted case holds: `PronounceDecimal(Decimal(false, 21, [2, 3, 4]), 2, true) == Spelled("twenty one point two three")` |
| NumeralExamples.Decimal21_234Places1 | test/test_format.py:161 | the asserted case holds: `PronounceDecimal(Decimal(false, 21, [2, 3, 4]), 1, true) == Spelled("twenty one point two")` |
| NumeralExamples.Decimal21_234Places0 | test/test_format.py:163 | the asserted case holds: `PronounceDecimal(Decimal(false, 21, [2, 3, 4]), 0, true) == Spelled("twenty one")` |
| NumeralExamples.Decimal21_234Places3 | test/test_format.py:165 | the asserted case holds: `PronounceDecimal(Decimal(false, 21, [2, 3, 4]), 3, true) == Spelled("twenty one point two three four")` |
| NumeralExamples.Decimal21_234Places4 | test/test_format.py:167 | the asserted case holds: `PronounceDecimal(Decimal(false, 21, [2, 3, 4]), 4, true) == Spelled("twenty one point two three four")` |
| NumeralExamples.Decimal21_234Places5 | test/test_format.py:169 | the asserted case holds: `PronounceDecimal(Decimal(false, 21, [2, 3, 4]), 5, true) == Spelled("twenty one point two three four")` |
| NumeralExamples.DecimalMinus1_234 | test/test_format.py:171 | the asserted case holds: `PronounceDecimal(Decimal(true, 1, [2, 3, 4]), 2, true) == Spelled("minus one point two three")` |
| NumeralExamples.DecimalMinus21_234 | test/test_format.py:173 | the asserted case holds: `PronounceDecimal(Decimal(true, 21, [2, 3, 4]), 2, true) == Spelled("minus twenty one point two three")` |
| NumeralExamples.DecimalMinus21_234Places1 | test/test_format.py:175 | the asserted case holds: `PronounceDecimal(Decimal(true, 21, [2, 3, 4]), 1, true) == Spelled("minus twenty one point two")` |
| NumeralExamples.DecimalMinus21_234Places0 | test/test_format.py:177 | the asserted case holds: `PronounceDecimal(Decimal(true, 21, [2, 3, 4]), 0, true) == Spelled("minus twenty one")` |
| NumeralExamples.DecimalMinus21_234Places3 | test/test_format.py:179 | the asserted case holds: `PronounceDecimal(Decimal(true, 21, [2, 3, 4]), 3, true) == Spelled("minus twenty one point two three four")` |
| NumeralExamples.DecimalMinus21_234Places4 | test/test_format.py:181 | the asserted case holds: `PronounceDecimal(Decimal(true, 21, [2, 3, 4]), 4, true) == Spelled("minus twenty one point two three four")` |
| NumeralExamples.DecimalMinus21_234Places5 | test/test_format.py:183 | the asserted case holds: `PronounceDecimal(Decimal(true, 21, [2, 3, 4]), 5, true) == Spelled("minus twenty one point two three four")` |
| NumeralExamples.Hundreds100 | test/test_format.py:187 | the asserted case holds: `PronounceNumber(100, true, false) == Spelled("one hundred")` |
| NumeralExamples.Hundreds666 | test/test_format.py:188 | the asserted case holds: `PronounceNumber(666, true, false) == Spelled("six hundred and sixty six")` |
| NumeralExamples.Hundreds1456 | test/test_format.py:189 | the asserted case holds: `PronounceNumber(1456, true, false) == Spelled("fourteen fifty six")` |
| NumeralExamples.Hundreds103254654 | test/test_format.py:190 | the asserted case holds: `PronounceNumber(103254654, true, false) == Spelled("one hundred and three million, two hundred and fifty four thousand, six hundred and fifty four")` |
| NumeralExamples.Hundreds1512457 | test/test_format.py:195 | the asserted case holds: `PronounceNumber(1512457, true, false) == Spelled("one million, five hundred and twelve thousand, four hundred and fifty seven")` |
| NumeralExamples.Hundreds209996 | test/test_format.py:199 | the asserted case holds: `PronounceNumber(209996, true, false) == Spelled("two hundred and nine thousand, nine hundred and ninety six")` |
| NumeralExamples.Large299792458Short | test/test_format.py:236 | the asserted case holds: `PronounceNumber(299792458, true, false) == Spelled("two hundred and ninety nine million, seven hundred and ninety two thousand, four hundred and fifty eight")` |
| NumeralExamples.Large299792458Long | test/test_format.py:240 | the asserted case holds: `PronounceNumber(299792458, false, false) == Spelled("two hundred and ninety nine million, seven hundred and ninety two thousand, four hundred and fifty eight")` |
| NumeralExamples.Large100034000000299792458Short | test/test_format.py:244 | the asserted case holds: `PronounceNumber(100034000000299792458, true, false) == Spelled("one hundred quintillion, thirty four quadrillion, two hundred and ninety nine million, seven hundred and ninety two thousand, four hundred and fifty eight")` |
| NumeralExamples.Large100034000000299792458Long | test/test_format.py:249 | the asserted case holds: `PronounceNumber(100034000000299792458, false, false) == Spelled("one hundred trillion, thirty four thousand billion, two hundred and ninety nine million, seven hundred and ninety two thousand, four hundred and fifty eight")` |
| NumeralExamples.Large10000000000Short | test/test_format.py:254 | the asserted case holds: `PronounceNumber(10000000000, true, false) == Spelled("ten billion")` |
| NumeralExamples.Large1000000000000Short | test/test_format.py:257 | the asserted case holds: `PronounceNumber(1000000000000, true, false) == Spelled("one trillion")` |
| NumeralExamples.Large1000001Short | test/test_format.py:261 | the asserted case holds: `PronounceNumber(1000001, true, false) == Spelled("one million, one")` |
| NumeralExamples.Large95505896639631893Short | test/test_format.py:263 | the asserted case holds: `PronounceNumber(95505896639631893, true, false) == Spelled("ninety five quadrillion, five hundred and five trillion, eight hundred and ninety six billion, six hundred and thirty nine million, six hundred and thirty one thousand, eight hundred and ninety three")` |
| NumeralExamples.Large95505896639631893Long | test/test_format.py:268 | the asserted case holds: `PronounceNumber(95505896639631893, false, false) == Spelled("ninety five thousand five hundred and five billion, eight hundred and ninety six thousand six hundred and thirty nine million, six hundred and thirty one thousand, eight hundred and ninety three")` |
| NumeralExamples.Ordinal1 | test/test_format.py:359 | the asserted case holds: `PronounceNumber(1, true, true) == Spelled("first")` |
| NumeralExamples.Ordinal10 | test/test_format.py:360 | the asserted case holds: `PronounceNumber(10, true, true) == Spelled("tenth")` |
| NumeralExamples.Ordinal15 | test/test_format.py:361 | the asserted case holds: `PronounceNumber(15, true, true) == Spelled("fifteenth")` |
| NumeralExamples.Ordinal20 | test/test_format.py:362 | the asserted case holds: `PronounceNumber(20, true, true) == Spelled("twentieth")` |
| NumeralExamples.Ordinal27 | test/test_format.py:363 | the asserted case holds: `PronounceNumber(27, true, true) == Spelled("twenty seventh")` |
| NumeralExamples.Ordinal30 | test/test_format.py:364 | the asserted case holds: `PronounceNumber(30, true, true) == Spelled("thirtieth")` |
| NumeralExamples.Ordinal33 | test/test_format.py:365 | the asserted case holds: `PronounceNumber(33, true, true) == Spelled("thirty third")` |
| NumeralExamples.Ordinal100 | test/test_format.py:366 | the asserted case holds: `PronounceNumber(100, true, true) == Spelled("hundredth")` |
| NumeralExamples.Ordinal1000 | test/test_format.py:367 | the asserted case holds: `PronounceNumber(1000, true, true) == Spelled("thousandth")` |
| NumeralExamples.Ordinal10000 | test/test_format.py:368 | the asserted case holds: `PronounceNumber(10000, true, true) == Spelled("ten thousandth")` |
| NumeralExamples.Ordinal18691 | test/test_format.py:370 | the asserted case holds: `PronounceNumber(18691, true, true) == Spelled("eighteen thousand, six hundred and ninety first")` |
| NumeralExamples.Ordinal1567 | test/test_format.py:372 | the asserted case holds: `PronounceNumber(1567, true, true) == Spelled("one thousand, five hundred and sixty seventh")` |
| NumeralExamples.Ordinal18000000 | test/test_format.py:378 | the asserted case holds: `PronounceNumber(18000000, true, true) == Spelled("eighteen millionth")` |
| NumeralExamples.Ordinal18000000000000Long | test/test_format.py:380 | the asserted case holds: `PronounceNumber(18000000000000, false, true) == Spelled("eighteen billionth")` |
| NumeralExamples.Ordinal18000000000000 | test/test_format.py:383 | the asserted case holds: `PronounceNumber(18000000000000, true, true) == Spelled("eighteen trillionth")` |
| NumeralExamples.Ordinal18000000000000000000Long | test/test_format.py:385 | the asserted case holds: `PronounceNumber(18000000000000000000, false, true) == Spelled("eighteen trillionth")` |

## Left out

- `nice_number` and fraction formatting (`test/test_format.py:84-131`): not modelled.
- Scientific notation and infinity in `pronounce_number` (`test/test_format.py:203-222`, `test/test_format.py:348-356`): past the scale words the model returns the `Scientific` marker without its text.
- Floating-point inputs are not modelled. The float cases at `test/test_format.py:274-346` (10e80, 1.9874522571e80, 1.00000000000000001e150) name numbers whose digits come from the binary float, so they are not restated; the 49 scale words they use are in the model's table. A decimal is given as its sign, whole part and digits after the point, as `str()` shows them.
- Numerals.InRange: the reach of the model's reading ends with the table's last word, "millinillion" (below 10^150 under the short scale); ScaleNames holds no word past it.
- Ordinals of decimals and of values given in scientific form (`test/test_format.py:374-377`): not modelled.
- `nice_date`, `nice_date_time` and `nice_year` (`test/test_format.py:530-609`): not modelled. Neither are `extract_datetime`, `extract_duration` and the other date parsers (`test/test_parse.py:300-808`, `test/test_parse.py:850-861`). They depend on calendars, the clock and time zones.
- `fuzzy_match` and `match_one` (`test/test_parse.py:42-63`), and `get_gender` (`test/test_parse.py:1093-1096`): not modelled.
- `extract_number` with `ordinals=True`, word ordinals ("third", "billionth"), fractions ("1/3", "quarter", "a half", "fifths") and decimal words ("point", "dot") are not modelled. The assertions that need them are not restated (for example `test/test_parse.py:78-96`, `test/test_parse.py:122-212`, `test/test_parse.py:220-232`, `test/test_parse.py:249-251`, `test/test_parse.py:269-276`, `test/test_parse.py:922-924`, `test/test_parse.py:933-936`). Ordinal words read as ordinary words, as with `ordinals=None`. Under `ordinals=False`, which is also what a call without `ordinals` does, the source reads "third", "fifths", "billionth" and the like as fractions (1/3, 2/5, 1e-9, 1e-12: `test/test_parse.py:144-145`, `test/test_parse.py:149-150`, `test/test_parse.py:163-164`, `test/test_parse.py:177-179`, `test/test_parse.py:187-188`, `test/test_parse.py:195-196`); that reading is left out.
- Extract.ExtractNumber: has no `ordinals` parameter and follows the `ordinals=None` reading, in which no ordinal word ("first", "third", "billionth") is a number word; where a test calls `extract_number` without `ordinals` and its text holds no ordinal word, the two readings agree. It returns whole numbers only. The source's float results (22.6, 1.5, ...) are out of reach, because fractions and decimal words are not modelled.
- Normalize.Expansion: the contraction table holds the contractions the tests name (`test/test_parse.py:939-1068`, plus "whats"). The source's full table is not part of this model.
- Splitting on whitespace other than the space character (tabs, newlines) is not modelled. Neither is Unicode case folding: lower-casing is ASCII only.
- Languages other than English, the `lang` argument of each call, and the per-language dispatch are not modelled. The registry keeps the language codes only.
- `nice_time` takes the hour and the minute only. Seconds, the date and time zones play no part.
- Integers are unbounded. Python's integers are unbounded too, so no width is modelled.
