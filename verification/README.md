# Alert delivery of Polymarket Watchtower: a verified model

This project models the part of Polymarket Watchtower that turns a finding into a Telegram
message and keeps the books around it, and proves what the code guarantees there. Check it with
`dafny verify dfyconfig.toml` (Dafny 4.11).

| component | modules |
|---|---|
| HTML-safe message splitter | `TagScan`, `SafeSplit`, `SplitTheorems`, `BareTags`, `SplitRuns`, `SplitAsWritten`, `SplitExact`, `SplitParts`, `BoldSpan` |
| renderer of trade alerts | `Wording`, `TelegramHtml`, `RenderedSplit`, `TradeMessage`, `TradeMessageTheorems`, `TradeMessageFields`, `TradeMessageText`, `TradeMessageWriters` |
| alert queue and sender | `AlertTable`, `AlertSender`, `DeliveryProtocol`, `DeliveryTheorems`, `DeliveryBackoff`, `DeliveryWorld`, `RoutedDelivery` |
| AI spend governor and preflight | `Budget`, `BudgetTheorems`, `BudgetBooks` |
| AI analysis version chain | `Analysis`, `AnalysisChain`, `AnalysisRecords` |
| trade ingest | `TradeIngest` |
| selector report | `SelectorReport`, `SelectorReportMeaning` |
| routing and guard | `TelegramRouting`, `GuardPhrases`, `AlertSuppression` |
| shutdown | `GracefulShutdown` |

`TextBytes` holds the string helpers, `Optional` the option type. Strings are byte strings, so a bullet or a dash is written
as its UTF-8 bytes. Code that works by updating things in place is a class or a loop proved
against a specification function, and what that function means is proved apart from it, on
columns, names and byte positions; concurrent code is a transition system over its atomic steps,
and its theorems range over every sequence of them. The conditions of the SQL statements are
those of `internal/infra/postgres/sqlc/alerts.sql.go` (lines 27-41, 609-619, 636-647, 663-669 and
705-714).

## Where the code and its documentation disagree

The model follows the code; each point is a theorem.

* `safe_split.go` line 62 scans from the carried stack although line 76 has already re-opened the
  carried tags in the text, so they are counted twice. On good bodies that are
  tidy, or whose tags take half the reserve at most, the parts are valid exactly when no tag is
  open at any cut but the last (`AsWrittenSplit`); on bare bodies exactly when moreover no cut
  falls inside a tag (`AsWrittenExactly`). On every body the loop ends exactly when the re-opened
  tags never fill the window (`EndsIffNeverStuck`). A long bold span gives invalid parts and then
  an endless loop (`BoldSpan`). The discipline its comments describe (lines 17-22 and 202-204) is
  proved correct on good bodies (`DocumentedSplit`).
* Lines 66-68 of `safe_split.go` shrink a chunk that does not fit beside its closers and drop what
  they cut off; text is lost exactly then (`RoundLoses`, `RunLoses`, `DeepSpanLosesText`).
* The comments of `safe_split.go` list `a` among the handled tags. The scanner does not stack it,
  and a soft cut can fall inside `<a href` (`AnchorCutInTwo`). The part before such a cut is never
  valid, so an alert, links and long lines included, comes back in valid parts exactly when none
  of its cuts does that (`DocumentedExactly`, `RenderedExactly`, `AlertExactly`).
* `worker.go` lines 9-10 promise that no alert is sent twice. A reset that overtakes a slow sender,
  or meets a row whose sender died after delivering, costs one more delivery each
  (`DeliveryBound`, `DeliveryBoundIsTight`).
* `MaxAttempts` is documented as a hard cap (`worker.go` lines 81-83). It is one exactly under a
  policy of one attempt (`LimitHoldsIffOneAttempt`). Otherwise n resets that overtake a live sender
  can cost n attempts too many, and never more (`AttemptBound`, `AttemptBoundIsTight`).
* A cancelled send is said to leave the row pending (`worker.go` lines 350-351). It leaves it in
  `sending`, from where only the stale reset recovers it (`Worker.Send`, `DrainRecovers`).
* An alert dropped by routing or guard is marked sent with message id 0 (`MarkedSentMeans`,
  `SentRowsAreExplained`).
* `guard.go` lines 214-217 call a false positive on a real flow alert structurally impossible. It
  is as far as the renderer's own wording goes (`QuietHidesPhrases`), but any external text can be
  one: a market title, a line of the AI note, an annotation (`TextsDropAlert`). `GuardDropsAlert`
  says exactly which texts are.
* The severity is the one text `writeTradeHeader` does not escape. The four enumerated ones are
  harmless; in general it decides whether the body is well nested (`SeverityDecides`,
  `SeverityLines`).
* `aianalysis.go` lines 527-536 promise a refresh when the lifecycle has moved by
  LifecycleRefreshDeltaPct or CLV24h materially. The code uses the former as a switch only: with it
  on, any row more than an hour old is refreshed if the market has begun, moved or not; CLV24h is
  not looked at (`CallMeans`).
* A lost insert race is logged as a success although nothing was stored (`aianalysis.go` lines
  332-369, `EveryInterleavingIsSound`).
* `Graceful` is documented to wait only up to the fade-out (`graceful.go` lines 22-24). The drain
  waits for the channel to be closed, which needs every component to return
  (`FadeOutDoesNotRelease`, `StuckAfterFadeOut`); once they have, it returns (`ShutdownCompletes`).

## Conditions used in the main results

* Tidy body: no blank inside a tag and every tag shorter than the window less the reserve. Lined
  body: no newline inside a tag and a newline in every 983 bytes, the last quarter of the window.
  Good body: tidy or lined, well nested, and the closers fit the 64-byte reserve wherever it is
  cut. All can be read off the body. Rendered alerts meet them, links included, if their lines are
  that short (`AlertSplits`); that is the ordinary case, since every section is one of lines.
* Bare body: no tag holds a '<', and a tag with a supported name holds no blank. Every rendered
  document is bare, whatever its fields and links contain.
* No production code passes an alert to `SafeSplitForTelegram`; its comments name two prediction
  workers as callers. The theorems on alerts say what it would do with them.
* `CarriesOnce` and `CutsProperly` replay the cuts of a body and ask whether a tag is open at one of
  them, and whether one falls inside a tag or gets nowhere; they do not look at the parts.
* The guard's theorems are about trade alerts of an enumerated severity. Printers print figures:
  digits, points, commas, signs, colons, blanks and `UTC`.
* A delivery counts when the transport carried it out, also if the sender was told otherwise; those
  are tallied as lost acknowledgements.

## Model

| member | source | states |
|---|---|---|
| TagScan.RunConcat | internal/infra/alerting/safe_split.go:147-185 | Scanning composes: reading `a + b` is reading `a`, then `b` from the state that leaves; inside or outside a tag |
| TagScan.RunUnder | internal/infra/alerting/safe_split.go:147-185 | Properly nested text never looks at the tags that were open before it |
| TagScan.RunOpeners | internal/infra/alerting/safe_split.go:202-216 | Reading back the openers of any stack of supported tags pushes exactly that stack |
| TagScan.RunClosers | internal/infra/alerting/safe_split.go:187-200 | Reading the closers of any stack of supported tags pops exactly that stack, with no nesting error: closers invert openers |
| TagScan.OpenersConcat | internal/infra/alerting/safe_split.go:205-216 | Openers of two stacks in a row are the openers of the stacks joined |
| TagScan.ClosersConcat | internal/infra/alerting/safe_split.go:189-200 | Closers of two stacks joined are those of the inner one, then those of the outer one |
| TagScan.InsideTagIsScan | internal/infra/alerting/safe_split.go:118-128 | The look-behind test `insideTag` agrees with the forward scan at every position of every text |
| TagScan.TagStack | internal/infra/alerting/safe_split.go:147-185 | The index-jumping loop computes the stack of the byte-by-byte scan, unfinished tags and stray closers included |
| TagScan.ApplyTag | internal/infra/alerting/safe_split.go:162-182 | One complete tag: unsupported names ignored, a closer pops, an opener pushes |
| TagScan.PopTop | internal/infra/alerting/safe_split.go:174-179 | A closing tag removes the topmost occurrence of its name and nothing else |
| TagScan.TagNameMeans | internal/infra/alerting/safe_split.go:161-167 | A tag's name is what follows the slash, in lower case, up to the first blank or tab |
| TagScan.TagMeans | internal/infra/alerting/safe_split.go:162-182 | On the names a complete tag meets: of the eight known names an opening tag is pushed and a closing one takes away the topmost of its name, if any; every other tag is passed over; nesting is lost exactly when a closing tag does not close the innermost open one |
| TextBytes.SpaceTrimmed | internal/infra/alerting/safe_split.go:33 | The body's trim removes white space at both ends and nothing else |
| TextBytes.FrontTrimmed | internal/infra/alerting/safe_split.go:72 | The trim of what is left removes all blanks, tabs and newlines in front and nothing else |
| TextBytes.EndTrimmed | internal/infra/alerting/safe_split.go:58 | The trim of a chunk does so at its end |
| TagScan.CloserForStack | internal/infra/alerting/safe_split.go:189-200 | The loop writes the closers innermost first |
| TagScan.OpenerForStack | internal/infra/alerting/safe_split.go:205-216 | The loop writes the openers outermost first |
| SafeSplit.CutMeaning | internal/infra/alerting/safe_split.go:86-116 | A cut always makes progress and stays in the window; it follows a blank in the last quarter, or is the last position outside every tag, or the whole window is one tag |
| SafeSplit.CutIsPreferred | internal/infra/alerting/safe_split.go:86-116 | For every text and window the cut of the specification is the one so preferred, stated without its own searches |
| SafeSplit.RoundMeans | internal/infra/alerting/safe_split.go:45-78 | A round of a text of more than 4000 bytes: cut at the preferred position within 3936 bytes, chunk and rest trimmed, the longest front that fits beside the closers sent with them, the open tags carried |
| SafeSplit.PreferredCut | internal/infra/alerting/safe_split.go:89-116 | On byte positions: right behind the last blank line that lies wholly in the window and starts beyond three quarters of it; without one, the same for a newline, then for a point with a blank, then for a blank; failing all four, the last position outside every tag, or the window's end if there is none |
| SafeSplit.ShrinkToFit | internal/infra/alerting/safe_split.go:66-68 | The shrink loop leaves the longest prefix that fits beside the closers, never less than one byte |
| SafeSplit.SplitRound | internal/infra/alerting/safe_split.go:46-78 | One turn of the loop: part, carried tags and remainder are those of the specification of a round |
| SafeSplit.SafeSplitForTelegram | internal/infra/alerting/safe_split.go:32-84 | The whole loop, scan seeded with the carried stack as in line 62, computes `Split`; `None` while turns remain; a blank body gives no part, one of at most 4000 bytes itself |
| SplitTheorems.TidyCut | internal/infra/alerting/safe_split.go:89-116 | In tidy text a cut never falls inside a tag, however many tags are re-opened before it |
| SplitTheorems.TidyRound | internal/infra/alerting/safe_split.go:45-78 | A round keeps the not yet emitted text tidy, under either discipline |
| SplitTheorems.RoundPart | internal/infra/alerting/safe_split.go:57-69 | A round's part, read from an empty stack, is well nested and at most 4000 bytes when the closers fit the reserve |
| SplitTheorems.LinedCut | internal/infra/alerting/safe_split.go:89-116 | In text whose every 983 bytes hold a newline outside all tags, blanks inside tags allowed, a cut follows a newline, never falls inside a tag and lies beyond the re-opened tags |
| SplitTheorems.LinedRound | internal/infra/alerting/safe_split.go:45-78 | A round keeps the not yet emitted text so, under either discipline |
| SplitRuns.DocumentedRound | internal/infra/alerting/safe_split.go:45-78 | A documented round whose cut lies outside all tags and behind the re-opened ones keeps every part valid, emits the next slice of the body dropping only blanks, and makes the not yet emitted text strictly shorter: the termination measure, though the remainder itself regrows |
| SplitRuns.DocumentedSplit | internal/infra/alerting/safe_split.go:13-29 | For every well-nested body nested no deeper than the reserve whose cuts are clean (tidy or lined), the documented discipline ends, every part is valid HTML of at most 4000 bytes, and prefix-openers and suffix-closers removed the parts are the body up to blanks at the cuts |
| SplitRuns.ProperlyCutSplit | internal/infra/alerting/safe_split.go:32-84 | What that rests on: any well-nested body no deeper than the reserve, tags with blanks included, whose documented run cuts outside all tags and behind the re-opened ones comes back in full |
| BareTags.BareRound | internal/infra/alerting/safe_split.go:45-78 | In text whose tags hold no other tag's start and whose supported tags hold only their name, every cut, also one inside a tag, leaves the scan of the rest as it was, on top of what the scan was seeded with |
| SplitAsWritten.LeftOpen | internal/infra/alerting/safe_split.go:60-77 | What the code as written leaves open at the end is every stack it re-opened except the last, for any number of rounds, on tidy and on bare bodies |
| SplitAsWritten.AsWrittenSplit | internal/infra/alerting/safe_split.go:45-83 | On good bodies, tidy or with tags that take half the reserve at most, the code as written returns only valid parts if and only if no supported tag is open at any cut but the last; then it also terminates and loses nothing |
| SplitAsWritten.CarriesOnceIsEnough | internal/infra/alerting/safe_split.go:45-83 | On lined bodies too, carrying tags over the last cut at most suffices for all of that |
| SplitAsWritten.CarriedPartIsInvalid | internal/infra/alerting/safe_split.go:60-69 | A clean round that starts from carried tags closes them twice: its part is never well nested |
| SplitAsWritten.CalmCarriesNothing | internal/infra/alerting/safe_split.go:45-83 | A lined body with no tag open at any newline carries nothing over any cut |
| SplitAsWritten.SameRun | internal/infra/alerting/safe_split.go:45-83 | On such bodies the code and the documented discipline produce the same run |
| SplitAsWritten.StuckRound | internal/infra/alerting/safe_split.go:45-78 | A window filled by re-opened tags is still filled after the next round |
| SplitAsWritten.NeverEnds | internal/infra/alerting/safe_split.go:45-78 | Once the re-opened tags fill the window the loop never ends, whatever number of rounds |
| SplitAsWritten.UnstuckRound | internal/infra/alerting/safe_split.go:45-78 | Until then every round takes text from what is left, or cuts right behind the re-opened tags and doubles them |
| SplitAsWritten.EndsIffNeverStuck | internal/infra/alerting/safe_split.go:45-78 | For every body, with no condition: the loop ends if and only if the re-opened tags never fill the window |
| SplitAsWritten.ReturnsIffNeverStuck | internal/infra/alerting/safe_split.go:32-84 | So does the function return, given turns enough, exactly for those bodies |
| SplitExact.UncleanPart | internal/infra/alerting/safe_split.go:57-69 | A cut inside a tag, whatever is open around it, makes a part that is not well nested |
| SplitExact.StalledForGood | internal/infra/alerting/safe_split.go:45-78 | A documented round that cuts right behind the re-opened tags repeats for ever |
| SplitExact.DocumentedExactly | internal/infra/alerting/safe_split.go:13-29 | For every bare body, well nested and no deeper than the reserve, tags with attributes included: the documented discipline gives valid parts for some number of turns if and only if all its cuts lie outside all tags and behind the re-opened ones; then it ends and loses nothing |
| SplitExact.AsWrittenExactly | internal/infra/alerting/safe_split.go:32-84 | The code as written does if and only if moreover no supported tag is open at any cut but the last |
| SplitParts.PartSizes | internal/infra/alerting/safe_split.go:64-69 | For every body, discipline and number of turns, all parts keep the 4000 bytes if and only if in no round the closers alone fill a message |
| SplitParts.RoundLoses | internal/infra/alerting/safe_split.go:66-76 | In any round, what is sent, what the shrink loop cuts off, the dropped blanks and what is left make up the remainder; the second is empty, nothing is lost, if and only if chunk and closers fit together |
| SplitParts.RunLoses | internal/infra/alerting/safe_split.go:45-83 | A whole run, of any body, under either discipline and for any number of turns, accounts for every byte it met, and loses no text if and only if chunk and closers fit together in every round |
| BoldSpan.DeepSpanLosesText | internal/infra/alerting/safe_split.go:66-76 | Counterexample: seventeen nested bold tags around plain text lose four bytes at the first cut |
| BoldSpan.LongSpanIsInvalid | internal/infra/alerting/safe_split.go:57-77 | Counterexample family: one bold span of 8000 or more bytes never comes back in valid parts only, although the documented discipline splits it |
| BoldSpan.LongSpanNeverReturns | internal/infra/alerting/safe_split.go:45-78 | Counterexample family: from 60000 bytes of bold text on the function never returns, the carried stack doubling at every cut |
| TelegramHtml.ShownEscape | internal/infra/alerting/telegram.go:158-162 | `html.EscapeString` is undone by reading: any text, in any context, is shown verbatim |
| TelegramHtml.HtmlReads | internal/infra/alerting/telegram.go:158-162 | A document whose unescaped text has no markup is read as exactly the words it was built from |
| TelegramHtml.HtmlIsWellNested | internal/infra/alerting/telegram.go:158-162 | Such a document is well nested under the splitter's own scanner, in any context, anchors passing through untouched |
| TelegramHtml.RunAnchor | internal/infra/alerting/telegram.go:918-932 | An anchor with any href and label leaves the scanner's state unchanged: `a` is not among the tags it stacks |
| RenderedSplit.RenderedExactly | internal/infra/alerting/safe_split.go:32-84 | Renderer and splitter together, for every document whatever its fields and links contain: valid parts under the documented discipline if and only if no cut falls inside a tag or right behind the re-opened ones, as written if and only if moreover no span is open at a cut but the last; and then nothing is lost |
| RenderedSplit.RenderedBodySplits | internal/infra/alerting/safe_split.go:13-29 | Enough for it: one message, or no anchors, or a newline in every 983 bytes and none in a link; as written, where moreover no newline stands in a bold or code span |
| RenderedSplit.AnchorCutInTwo | internal/infra/alerting/safe_split.go:104-106 | The blank inside `<a href` is a soft boundary: whenever it stands behind well-nested text and is the only blank or newline in the last quarter of the first window, the part before it is not well nested, whatever else the body holds, under either discipline |
| RenderedSplit.LongWordIsCut | internal/infra/alerting/safe_split.go:104-106 | A concrete family: a long word before an anchor with a long caption |
| TradeMessageTheorems.MessageReads | internal/infra/alerting/telegram.go:398-406 | For every trade finding, whatever its fields contain, the body is well nested and every field is read back verbatim, given a severity without markup characters |
| TradeMessageTheorems.SeverityDecides | internal/infra/alerting/telegram.go:433-440 | For every severity that leaves no tag unfinished: the body is well nested if and only if the severity, read inside the header's bold span, leaves that span as it found it, whether or not it is repeated further down |
| TradeMessageTheorems.SeverityLines | internal/infra/alerting/telegram.go:433-440 | For every severity at all, also one whose unfinished tag the title goes on: the body is well nested if and only if the header and the line that repeats the severity are, read in a row |
| TradeMessageTheorems.EnumeratedSeverities | internal/domain/model/anomaly/finding.go:50-57 | The four enumerated severities hold no markup and meet that condition |
| TradeMessageTheorems.RunCase | internal/infra/alerting/telegram.go:433-434 | Upper-casing a text changes nothing for the scanner |
| TradeMessageFields.MessageShows | internal/infra/alerting/telegram.go:398-406 | Which external texts an alert shows and behind what wording, from the finding alone: title, outcome, side, wallet, category, blocked payload, note lines, at most three annotations, in this order, each once, none when empty; its anchors are the reachable ones of the four links in order |
| TradeMessageFields.TradeShows | internal/infra/alerting/telegram.go:645-663 | The Trade section shows outcome and side if either is set, then wallet and category where not empty |
| TradeMessageFields.BlockedShows | internal/infra/alerting/telegram.go:834-868 | The blocked block shows its non-empty fields in order, nothing if seven of the eight are empty |
| TradeMessageFields.WhyShows | internal/infra/alerting/telegram.go:462-529 | The Why section shows no external text at all |
| TradeMessageText.MessageSays | internal/infra/alerting/telegram.go:398-441 | Every alert, figure by figure: its HTML is exactly one list built from the finding and the source's format strings, apart from the functions that build the document; each label with the field behind it, profit and amount, payoff, tails, odds, baselines, gates, context lines, trade, links, blocked payload, note and annotations, in this order, each external text escaped |
| TradeMessageText.HeaderReads | internal/infra/alerting/telegram.go:419-441 | Severity, profit if positive, amount, HOT and title; the amount is the trade's notional or the cluster's total, the title the question, slug or market id |
| TradeMessageText.PayoffReads | internal/infra/alerting/telegram.go:465-468 | `profit` shows the profit and `gross` the gross payout |
| TradeMessageText.TailReads | internal/infra/alerting/telegram.go:570-583 | A tail row: the notional, then each known ratio with its own percentile, the first behind an equals sign, two decimals below ten and none from there on |
| TradeMessageText.WhyReads | internal/infra/alerting/telegram.go:462-529 | The Why section, line by line with its figures and conditions |
| TradeMessageText.TradeReads | internal/infra/alerting/telegram.go:645-663 | The Trade section: size, shares and price each from its own field |
| TradeMessageText.LinksRead | internal/infra/alerting/telegram.go:704-730 | The four anchors in order, those whose URL is set and reachable, no heading without one |
| TradeMessageText.AnnotationsRead | internal/infra/alerting/telegram.go:786-823 | The first three annotations: date or dash, title, price before and after, change with sign, outcome, summary cut to 219 bytes and an ellipsis beyond 220, source |
| TradeMessageText.DurationMeans | internal/infra/alerting/telegram.go:992-1012 | What a duration prints: under a minute, minutes, hours and minutes, days and hours; the units printed and less than one of the smaller make up the duration |
| TradeMessageText.LinesMean | internal/infra/alerting/telegram.go:764 | Splitting the note loses nothing and leaves no newline in a line |
| TradeMessageTheorems.SeverityBreaksNesting | internal/infra/alerting/telegram.go:433-440 | The header writes the severity unescaped: any severity that breaks nesting inside the bold header breaks the whole body |
| TradeMessageTheorems.StrayCloserBreaksNesting | internal/infra/alerting/telegram.go:433-440 | A concrete one, a stray closing italic tag |
| TradeMessageTheorems.SubMinute | internal/infra/alerting/telegram.go:985-995 | A duration under a minute is written `&lt;1m` and read `<1m` |
| TradeMessageTheorems.AlertExactly | internal/infra/alerting/telegram.go:398-406 | For every trade alert, links and long lines included: exactly when it comes back in valid parts, documented and as written, and that nothing is lost then |
| TradeMessageTheorems.AlertSplits | internal/infra/alerting/telegram.go:398-406 | Enough for it: an alert that fits one message, or has no link, or has a newline in every 983 bytes and none in a link; as written, where moreover no newline stands in a span |
| GuardPhrases.QuietHidesPhrases | internal/infra/telegram/guard.go:170-266 | However the renderer's wording and figures are put together they never spell a phrase of the guard |
| GuardPhrases.EscapeContains | internal/infra/telegram/guard.go:170-266 | Escaping neither makes nor breaks a phrase without special characters |
| GuardPhrases.DocumentHit | internal/infra/telegram/guard.go:170-266 | A document holds a guard phrase if and only if an external text or href does, escaped, or a text completes what the wording before it begins |
| TradeMessageFields.MessageSpaced | internal/infra/alerting/telegram.go:398-406 | Every external text of an alert stands between wording that ends the phrase search on the right and begins a phrase on the left only after a bullet, a blank or a bold tag |
| AlertSuppression.HtmlContains | internal/infra/alerting/telegram.go:158-162 | Every external text of a document is in its HTML, escaped |
| AlertSuppression.GuardDropsAlert | internal/infra/telegram/guard.go:140-266 | For every finding of an enumerated severity and every configuration: the guard drops its alert if and only if a listed condition on the external texts holds, marker by marker, texts that complete a marker begun by wording included |
| AlertSuppression.AlertReachesChat | internal/infra/telegram/guard.go:140-148 | So whether the alert is handed to the signal chat or reported sent with id 0 is decided by routing and those texts |
| AlertSuppression.TextsDropAlert | internal/infra/telegram/guard.go:212-235 | Counterexample family, for any severity: one text with `state: ` and one with an arrow, be they note lines, reasons or annotations, drop the alert and have its row told success with id 0 |
| AlertSuppression.TitleDropsAlert | internal/infra/telegram/guard.go:212-235 | The market title alone can be both |
| TradeMessageWriters.MoneyDigits | internal/infra/alerting/telegram.go:968-983 | The comma loop equals grouping by threes from the right |
| TradeMessageWriters.GroupingKeepsDigits | internal/infra/alerting/telegram.go:968-983 | Removing the commas gives the digits back |
| TradeMessageWriters.MoneyMeans | internal/infra/alerting/telegram.go:968-983 | Below 1000 two decimals; from there the whole dollars, rounded down, without a leading zero, with a comma at every fourth byte from the right and nowhere else |
| TradeMessageWriters.WriteLinks | internal/infra/alerting/telegram.go:704-730 | The scan for any link and the loop append the links that survive sanitising, and no heading when there are none |
| TradeMessageWriters.WriteRecentAnnotationsBlock | internal/infra/alerting/telegram.go:786-823 | Appends at most three annotations |
| TradeMessageWriters.WriteAnalystNote | internal/infra/alerting/telegram.go:754-780 | Blocked block above the note, note lines trimmed and bulleted, annotations below it also when the note is empty |
| TradeMessageWriters.FormatTradeAnomaly | internal/infra/alerting/telegram.go:398-406 | The text is the list of labels, figures and texts of MessageSays; for every severity without markup characters it is well nested and shows its words |
| AlertTable.AlertRepository.constructor | internal/infra/repository/alert_repository.go:121-123 | An empty table |
| AlertTable.AlertRepository.TryCreatePending | internal/infra/repository/alert_repository.go:125-151 | One row per dedup key, ever: a taken key changes nothing; a free one adds, under a new id, a pending row without attempts, error, retry time or message |
| AlertTable.AlertRepository.ClaimPending | internal/infra/postgres/sqlc/alerts.sql.go:27-41 | On columns: a row is taken only if it was pending, or failed with a recorded retry time that has come; at most `limit` distinct ones, moved to `sending` and otherwise unchanged; such a row left behind means the batch is full and holds only rows at least as old; no other row changes |
| AlertTable.AlertRepository.MarkSent | internal/infra/repository/alert_repository.go:172-178 | Only a row still in `sending` becomes sent, with its message id, the error and the retry time cleared |
| AlertTable.AlertRepository.MarkFailed | internal/infra/repository/alert_repository.go:180-191 | Only a row still in `sending` fails, counting one attempt, with the error and the retry time given |
| AlertTable.AlertRepository.ResetStaleSending | internal/infra/repository/alert_repository.go:204-209 | Exactly the rows in `sending` older than the cutoff become pending again |
| AlertSender.ExponentialDelay | internal/app/usecase/alertsender/worker.go:403-412 | The doubling loop with 64-bit wrap-around, for every policy and attempt, follows the step-by-step specification |
| AlertSender.BackoffIsCapped | internal/app/usecase/alertsender/worker.go:400-412 | Where both delays are below 2^62 it gives the initial delay times 2^(attempt-1), capped |
| AlertSender.RetryIsBackedOff | internal/app/usecase/alertsender/worker.go:383-398 | A failure is retried if and only if the policy allows it, at a time that lies within the jitter fraction of the documented delay for the attempts made |
| AlertSender.DelayIsMonotone | internal/app/usecase/alertsender/worker.go:400-412 | The documented delay never shrinks from attempt to attempt and stays between the initial delay and the cap |
| AlertSender.JitterBounds | internal/app/usecase/alertsender/worker.go:413-421 | After jitter the delay is within the configured fraction of it, and not negative |
| AlertSender.JitterIsExact | internal/app/usecase/alertsender/worker.go:413-421 | It is the delay plus the drawn share of it, to the nanosecond |
| AlertSender.RenderErrorsAreFinal | internal/app/usecase/alertsender/worker.go:432-455 | A row that cannot be rendered is never retried, whatever the policy |
| AlertSender.FinalErrors | internal/app/usecase/alertsender/worker.go:432-455 | Which errors are final: render errors and the six phrases of Telegram's refusals, written out, and no others |
| AlertSender.Worker.Send | internal/app/usecase/alertsender/worker.go:306-361 | What each outcome does to the claimed row, and to no other; a cancelled send leaves it in `sending` |
| AlertSender.Worker.MarkFailed | internal/app/usecase/alertsender/worker.go:364-376 | Fails the row with the scheduled retry |
| AlertSender.Worker.DrainOne | internal/app/usecase/alertsender/worker.go:292-304 | Claims a batch and works through it in order, stopping when the context ends and leaving the rest in `sending` |
| AlertSender.DrainedMeans | internal/app/usecase/alertsender/worker.go:292-304 | Each claimed row reached before the context ended is marked by its own turn's outcome, clock and draw; every other row is as it was |
| DeliveryBackoff.ClaimedExactly | internal/infra/postgres/sqlc/alerts.sql.go:27-41 | In the concurrent model too a claim takes the row exactly if it is pending, or failed with a retry time that has come |
| DeliveryBackoff.DelayDoubles | internal/app/usecase/alertsender/worker.go:400-412 | The documented delay starts at the initial one and doubles from attempt to attempt up to the cap |
| DeliveryBackoff.EveryRetryWaits | internal/app/usecase/alertsender/worker.go:306-422 | In every run with any number of senders: a claim of a failed row comes no sooner after the refusal that failed it, of a sender then having made k attempts with another one allowed, than the documented delay of attempt k less the jitter fraction; k is the row's attempts unless a reset overtook a live sender |
| DeliveryBackoff.RunIsBacked | internal/app/usecase/alertsender/worker.go:364-422 | The inductive form: every retry time recorded, or about to be, by whichever sender, goes back to such a refusal and lies within the jitter fraction of its delay |
| DeliveryTheorems.DeliveryBound | internal/app/usecase/alertsender/worker.go:306-376 | In every run with any number of senders, crashes, slow holders and late marks, deliveries of one alert are at most 1 + resets that met a live or already delivered holder + deliveries reported as failures |
| DeliveryTheorems.DeliveryBoundIsTight | internal/app/usecase/alertsender/worker.go:9-10 | The bound is reached for every n, so the promise that no alert is sent twice fails exactly under such resets |
| DeliveryTheorems.PromptRunsKeepTheLease | internal/app/usecase/alertsender/worker.go:104-112 | If holders act within the stale limit and do not die between acceptance and marking, there is never a second live holder, and an alert is delivered at most once apart from lost acknowledgements |
| DeliveryTheorems.AttemptBound | internal/app/usecase/alertsender/worker.go:81-83 | Attempts never exceed the limit by more than one per reset that overtook a live sender, never at all under a policy of one attempt, and a row given up was given up for one of the three stated reasons |
| DeliveryTheorems.AttemptBoundIsTight | internal/app/usecase/alertsender/worker.go:81-83 | For every n and every policy of two attempts or more, n overtaking resets can cost exactly n attempts beyond the limit |
| DeliveryTheorems.LimitHoldsIffOneAttempt | internal/app/usecase/alertsender/worker.go:81-83 | All runs stay within the attempt limit if and only if the policy permits one attempt |
| DeliveryTheorems.DeadSenderResets | internal/app/usecase/alertsender/worker.go:275-376 | Deliveries never exceed 1 + the stale resets of the row + lost acknowledgements; in every run whose resets only met dead senders the row has at most one live holder and attempts stay within the limit |
| DeliveryTheorems.FinalStaysFinal | internal/infra/repository/alert_repository.go:153-169 | A sent or given-up row is never claimed, marked or reset again, in any continuation |
| DeliveryTheorems.NeverStranded | internal/app/usecase/alertsender/worker.go:275-304 | From every reachable state an alert neither sent nor given up can still be delivered, at a time no earlier than now |
| DeliveryWorld.ClaimMovesRows | internal/infra/repository/alert_repository.go:153-169 | In the concurrent model a batch claim moves the columns exactly as ClaimPending does |
| DeliveryWorld.ResetMovesRows | internal/infra/repository/alert_repository.go:204-209 | A drain's reset moves them exactly as ResetStaleSending does |
| DeliveryWorld.SenderMovesRows | internal/infra/repository/alert_repository.go:172-191 | A sender's step changes at most its own row, and only by MarkSent or MarkFailed |
| DeliveryWorld.StepsAreSend | internal/app/usecase/alertsender/worker.go:306-361 | An uninterrupted sender's protocol steps move the row exactly as one Worker.Send |
| DeliveryWorld.EveryRunIsSafe | internal/app/usecase/alertsender/worker.go:275-376 | In every interleaving of inserts, claims, drains, ticks and sender steps every dedup key has one row at most, and every row keeps both bounds, one attempt per overtaking reset |
| DeliveryWorld.DrainRecovers | internal/app/usecase/alertsender/worker.go:276-280 | The first drain after updated_at plus the stale limit makes any row in `sending` claimable again, and the next claim takes it |
| RoutedDelivery.SentRowsAreExplained | internal/app/usecase/alertsender/worker.go:343-361 | On every trace of queue, router, guard and transport: a row marked sent carries the id of a message the transport took for this alert in the signal chat, or 0 and a text of this alert was dropped by router or guard; alerts appear in no other chat; and the messages of one alert there are at most 1 + duplicating resets + lost acknowledgements |
| RoutedDelivery.EveryTraceIsTruthful | internal/app/usecase/alertsender/worker.go:343-361 | The inductive form: the delivery count of every row is the number of its messages in the transport's log, and every id recorded or about to be is a known one |
| Budget.Manager.constructor | internal/infra/aibudget/budget.go:105-120 | Empty books for the current day |
| Budget.Manager.Allow | internal/infra/aibudget/budget.go:132-156 | On a new day the books are emptied first, on the same day they stay; bucket exhausted if and only if its positive cap is below its spend plus the estimate, global exhausted if and only if the total's is and the bucket's is not, allowed otherwise; reserves nothing |
| Budget.Manager.Charge | internal/infra/aibudget/budget.go:160-180 | Adds the cost, no less than zero, to the total and the bucket of the same day, or to empty books on a new one |
| Budget.Manager.Snapshot | internal/infra/aibudget/budget.go:187-196 | The books of the same day, empty ones on a new day |
| Budget.Manager.RollIfNewDay | internal/infra/aibudget/budget.go:198-211 | A new UTC day starts with a zero total and no buckets; the same day changes nothing |
| Budget.Preflight.Run | internal/infra/aipreflight/preflight.go:95-125 | Compacts only a prompt over the cap and at most once, refuses one still too long without touching the budget, else allows it if and only if bucket and total have room for the estimate, on books emptied if the day is new |
| Budget.Preflight.Charge | internal/infra/aipreflight/preflight.go:131-136 | Charges the surface's bucket, or nothing without one |
| Budget.CompactMeaning | internal/infra/aipreflight/preflight.go:181-194 | A compacted prompt is the front of the prompt that leaves room for the 71-byte marker, at least one byte, plus the marker, the rest reported as dropped; it fits the cap exactly if the marker leaves room; without a positive cap nothing changes |
| BudgetTheorems.SpendBound | internal/infra/aibudget/budget.go:132-211 | With at most n calls between Allow and Charge, estimates at most E, the day's spend never exceeds cap + (n-1)*E + the excess of actual over estimated cost: total and every bucket, every interleaving, calls in flight across midnight |
| BudgetTheorems.SpendBoundWithinEstimates | internal/infra/aibudget/budget.go:132-211 | Where no call costs more than its estimate the bound is cap + (n-1)*E |
| BudgetTheorems.SpendBoundIsTight | internal/infra/aibudget/budget.go:132-180 | For every n the overshoot of n-1 estimates is reached |
| BudgetTheorems.BooksBalance | internal/infra/aibudget/budget.go:160-211 | The total is the sum of the buckets in every run |
| BudgetBooks.BooksAreToday | internal/infra/aibudget/budget.go:132-211 | After any run, told from the events alone: total and every bucket are the sum of the costs, no less than zero, settled since the event that last changed the day, and nothing from before it |
| BudgetBooks.AskExactly | internal/infra/aibudget/budget.go:132-156 | After any run a call is allowed if and only if its estimate fits below both caps on top of those sums; on a new day it is answered as on empty books whatever happened before |
| Analysis.SplitFields | internal/app/usecase/aianalysis/aianalysis.go:578-595 | The loop computes the space-separated fields, runs of spaces and a missing final space included |
| Analysis.SeverityRoundTrip | internal/app/usecase/aianalysis/aianalysis.go:566-576 | The severity printed into trigger_detail is parsed back exactly if and only if it has no space |
| Analysis.AlertAnalysisRepository.ReadLatestVersion | internal/infra/repository/analysis_repository.go:76-84 | The greatest version, 0 for none |
| Analysis.AlertAnalysisRepository.ReadLatest | internal/infra/repository/analysis_repository.go:84-95 | The row of the greatest version |
| Analysis.AlertAnalysisRepository.Insert | internal/infra/repository/analysis_repository.go:97-124 | A taken version changes nothing; the result says whether the row was stored; other alerts are untouched |
| Analysis.Service.AnalyzeAndStore | internal/app/usecase/aianalysis/aianalysis.go:155-381 | One call's whole effect on the alert's rows and on the request log, as CallMeans spells it out, every failure path included, other alerts untouched |
| Analysis.Service.RecordRequestLog | internal/app/usecase/aianalysis/aianalysis.go:386-391 | Appends one log row |
| AnalysisChain.EveryInterleavingIsSound | internal/app/usecase/aianalysis/aianalysis.go:155-381 | However concurrent calls interleave, fail or die: stored versions are exactly 1..n, every row is ok and passes the output check, every call that reached the analyzer and returned attempted exactly one log write, successes logged are rows stored plus races lost |
| AnalysisChain.RowsNeverChange | internal/infra/repository/analysis_repository.go:97-124 | In every interleaving a stored analysis stays as it was stored, for good; a lost race leaves the table as it is |
| AnalysisChain.UninterruptedCall | internal/app/usecase/aianalysis/aianalysis.go:155-381 | A call nothing interrupts has, in that model, exactly the effect of AnalyzeAndStore |
| AnalysisChain.SeverityClimbs | internal/app/usecase/aianalysis/aianalysis.go:537-564 | For non-overlapping calls within an hour of the previous row and without resolution, stored severities strictly increase and the chain has at most five rows |
| AnalysisRecords.CallMeans | internal/app/usecase/aianalysis/aianalysis.go:155-381 | On the names of the severities: a call asks the analyzer if and only if there is no row, or the severity stands above the last stored one in info < warning < critical < hard, or the market is resolved, or the row is more than an hour old and the market has begun; it stores the next version with its kind, detail and text if and only if the answer is accepted and nothing fails; and what it logs in every case |
| AnalysisRecords.RejectionMeans | internal/app/usecase/aianalysis/aianalysis.go:414-492 | Which answers are rejected, by category, status and text, and the log row of each |
| AnalysisRecords.ReasonSuffix | internal/app/usecase/aianalysis/aianalysis.go:395-409 | A reason as a status suffix, byte by byte |
| AnalysisRecords.SeverityReadsFirstWord | internal/app/usecase/aianalysis/aianalysis.go:566-595 | A severity with a blank in it is read back as its first word |
| AnalysisRecords.ChainIsRecords | internal/app/usecase/aianalysis/aianalysis.go:537-564 | For non-overlapping calls without resolution or aged rows: the stored chain is exactly the accepted calls whose severity stands above that of all accepted calls before them, in order, each with its own text and time |
| TradeIngest.FormatIntInjective | internal/infra/repository/trade_repository.go:686-708 | Decimal printing of ids and times is injective, signs included |
| TradeIngest.CompositeMeaning | internal/infra/repository/trade_repository.go:686-701 | Two pre-hash composites are equal if and only if the trades agree on every printed field, when neither outcome token goes on from the other with a bar, or else sides contain none |
| TradeIngest.BarsCollide | internal/infra/repository/trade_repository.go:686-701 | Counterexample: with bars in both, different trades share a composite |
| TradeIngest.DedupKeyMeaning | internal/infra/repository/trade_repository.go:686-701 | Equal dedup keys mean equal external ids, or equal printed fields |
| TradeIngest.KeyIs | internal/infra/repository/trade_repository.go:686-708 | The stored key, byte for byte |
| TradeIngest.TradeRepository.UpsertBatch | internal/infra/repository/trade_repository.go:95-125 | On any table: nothing stored changes, every key of the batch is there, a free key holds its first trade; Inserted is the growth of the table; a failing statement keeps what came before it |
| TradeIngest.IngestMeaning | internal/infra/repository/trade_repository.go:95-125 | After any run the table is the union of the trades by key, each key holding its first trade |
| TradeIngest.CountsAddUp | internal/infra/repository/trade_repository.go:95-125 | Over any interleaving of any batches the Inserted counts add up to the number of distinct keys |
| TradeIngest.OrderDoesNotMatter | internal/infra/repository/trade_repository.go:95-125 | Where equal keys mean equal trades the table depends on neither order nor repetition |
| TradeIngest.IngestIsIdempotent | internal/infra/repository/trade_repository.go:95-125 | Ingesting a batch again changes nothing, on any table |
| SelectorReport.ReadRow | cmd/cli/ws_selector_debug.go:309-353 | One row's updates of maps, market order, summaries and counters keep them equal to the group-by of the rows read |
| SelectorReport.Tally | cmd/cli/ws_selector_debug.go:369-381 | The running maximum is the true maximum, and the counter counts the entries above the limit |
| SelectorReport.Finalise | cmd/cli/ws_selector_debug.go:354-359 | Summaries in first-appearance order, each with its rank |
| SelectorReport.Gather | cmd/cli/ws_selector_debug.go:298-391 | The one-pass report equals the declarative group-by in every field modelled |
| SelectorReportMeaning.BucketMeans | cmd/cli/ws_selector_debug.go:167-183 | Which priority is which bucket |
| SelectorReportMeaning.MarketsInOrder | cmd/cli/ws_selector_debug.go:331-345 | The group-by's markets are all of the rows', each once, in the order of their first rows |
| SelectorReportMeaning.TokensInOrder | cmd/cli/ws_selector_debug.go:331-351 | A market's tokens are those of all its rows, one for one, field by field, in row order |
| SelectorReportMeaning.BucketCounts | cmd/cli/ws_selector_debug.go:317-318 | A bucket's count is the number of rows in it |
| SelectorReport.MarketsHoldEveryToken | cmd/cli/ws_selector_debug.go:331-351 | The market summaries hold exactly the rows' tokens, none lost, none twice, for any row order |
| SelectorReport.TokenCountsSumToRows | cmd/cli/ws_selector_debug.go:331-360 | Token counts over the markets sum to TotalRows |
| SelectorReport.BucketCountsSumToRows | cmd/cli/ws_selector_debug.go:317-318 | The counts in the report's own bucket map sum to TotalRows |
| SelectorReport.TogetherFlattens | cmd/cli/ws_selector_debug.go:331-359 | When each market's rows stand together the summaries flatten back to the rows in order |
| SelectorReport.RanksMatchIffTogether | cmd/cli/ws_selector_debug.go:350-356 | Every row's RankMarket is its market's rank if and only if each market's rows stand together |
| TelegramRouting.RouteMeaning | internal/infra/telegram/router.go:223-274 | Exactly when a surface is enabled, and for which chat |
| TelegramRouting.RouteBySurface | internal/infra/telegram/router.go:200-298 | The routing table surface by surface and toggle by toggle, written out: which are sent where, which suppressed and why, which blocked |
| TelegramRouting.GuardBySurface | internal/infra/telegram/guard.go:150-266 | What the guard takes a text for, on the phrases themselves; the first rule that fires names it |
| TelegramRouting.RefusedConfigs | internal/infra/telegram/router.go:186-198 | Exactly which configurations are refused; under an accepted one every report switched on reaches the admin chat |
| TelegramRouting.SurfaceOfKind | internal/app/usecase/alertsender/worker.go:61-73 | Which kind of alert is which surface |
| TelegramRouting.Router.Send | internal/infra/telegram/router.go:371-400 | A blocked or suppressed message delivers nothing and reports id 0; any other delivers to the routed chat exactly if the transport accepts |
| TelegramRouting.Guard.SendHtml | internal/infra/telegram/guard.go:140-148 | A classified text is dropped with id 0; any other is forwarded unchanged |
| TelegramRouting.EveryTraceKeepsChatsApart | internal/infra/telegram/router.go:190-274 | On every trace under a config Validate accepts without same-chat, each chat receives only its own, enabled surfaces and blocked or unknown ones reach neither |
| TelegramRouting.SharedChatMixes | internal/infra/telegram/router.go:193-197 | With same-chat allowed one enabled admin report already mixes the chats |
| TelegramRouting.AdminTextNeverOnSignalChat | internal/infra/telegram/guard.go:150-163 | Whatever the surface, a text with an admin marker never reaches the guarded signal chat |
| TelegramRouting.MarkedSentMeans | internal/infra/telegram/router.go:371-400 | One send of an alert of any kind: success is reported exactly if the transport accepted it for the signal chat or routing or guard dropped it; a dropped one with id 0 |
| GracefulShutdown.SendNeverWaits | internal/infra/shutdown/graceful.go:55-66 | A component's error always finds the channel open and with room |
| GracefulShutdown.EveryScheduleKeeps | internal/infra/shutdown/graceful.go:55-83 | In every schedule: no send on a closed channel, no error twice, nothing closed before all components are done |
| GracefulShutdown.ShutdownIsClean | internal/infra/shutdown/graceful.go:55-89 | When Graceful returns every component has returned and each non-cancelled error is reported exactly once |
| GracefulShutdown.ErrorsAreReturns | internal/infra/shutdown/graceful.go:55-89 | When Graceful returns, every function has returned, and the errors it reports are, each once, exactly those of the functions that returned one other than cancellation |
| GracefulShutdown.FadeOutDoesNotRelease | internal/infra/shutdown/graceful.go:71-83 | While a component runs Graceful does not return, however often the fade-out has elapsed |
| GracefulShutdown.StuckAfterFadeOut | internal/infra/shutdown/graceful.go:22-24 | For any number of components a schedule in which the fade-out has elapsed and only a component's return can let the caller go on |
| GracefulShutdown.EveryEventHelps | internal/infra/shutdown/graceful.go:55-83 | Every event but a cancellation brings the shutdown nearer its end |
| GracefulShutdown.NeverStuck | internal/infra/shutdown/graceful.go:68-83 | Once the components have returned from their functions some step is always enabled until Graceful returns |
| GracefulShutdown.ShutdownCompletes | internal/infra/shutdown/graceful.go:45-90 | From every reached state: while a function runs Graceful has not returned; once all have returned it returns within the remaining work, counted in events other than cancellations, in every schedule, and none gets stuck before |

## Left out

- SafeSplit.SafeSplitForTelegram: takes a bound on the number of turns, because the loop of the code need not end; for which bodies it returns is stated by ReturnsIffNeverStuck.
- SplitAsWritten.AsWrittenSplit: a lined body whose tags take more than half the reserve has the sufficient direction only (CarriesOnceIsEnough), because there the shrink loop may cut into a part; if it is bare, AsWrittenExactly is exact.
- TradeMessageTheorems.SeverityDecides: sets aside severities that leave a tag unfinished, which goes on into the title; SeverityLines covers them, with the title in its condition.
- SplitExact.DocumentedExactly: bodies that are not bare, where a cut tag may hold another one or close a tag, have the sufficient direction only (ProperlyCutSplit).
- DeliveryWorld.ClaimMovesRows: a concurrent batch may be any set of claimable rows; the limit and the oldest-first order are stated for AlertRepository.ClaimPending only.
- AnalysisChain.EveryInterleavingIsSound: the fault of the log store is not modelled; a log row is a write attempted.
- SelectorReport.Gather: the final sort of the per-event counts and the flags that are constant by construction are not modelled.
- The write* functions without a loop (header, Why, Trade and blocked blocks) are modelled as the documents they append, section by section and line by line; the order of their Fprintf calls is the order of the lines.
- Unicode beyond bytes: lower- and upper-casing act on ASCII only (the code also maps U+0130 and other letters), trimming removes the one-byte spaces only, and splitFields runs over bytes instead of runes.
- Floating point: costs, ratios and jitter are reals; numbers and times in a message or a dedup key are printed by parameters, as figures without bars. `money` converts by floor, without the 64-bit limit.
- SHA-256 is a parameter, assumed collision-free where DedupKeyMeaning says so.
- Widths of integers (int32 versions and limits, int64 ids), except in the backoff.
- Clocks, send outcomes, analyzer answers and database faults are parameters or nondeterministic events.
- A drain's parallel goroutines: the methods of Worker are sequential; their interleavings are the runs of DeliveryWorld.
- AI enrichment, annotation and attribution inside a send: they only take time as far as the queue is concerned.
- The bodies for accumulation, ownership, cluster and stable-favourite alerts: same building blocks as a trade alert.
- URL parsing in sanitizeLinkURL: which URLs are reachable is a parameter; the results hold for every choice.
- A component that panics, and the refusal of an empty component list, in Graceful.
- Metrics, logging, configuration parsing, HTTP and the SQL text.
