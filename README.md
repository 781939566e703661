# tkinter accessibility lint and WCAG contrast checker, in Dafny

This project models two independent parts of `tkinter-a11y-lint`.

**The pylint checker** (`tkinter_a11y_lint/plugin.py`, class `TkinterA11yChecker`).
The checker walks a Python module's syntax tree. It remembers, in the set
`tkinter_imports`, every name the module binds to tkinter:

- `import tkinter [as tk]` binds the alias, or `tkinter` when there is none.
- `from tkinter import Button [as B]` binds each alias, or each name when there is no alias.

For every call whose callee is one of these names, or an attribute of one (`tk.Button(...)`), the checker takes the widget name. It then reports:

- C9001 `missing-text-attribute`: a Button, Label, Checkbutton, Radiobutton or Menubutton has none of the keywords `text`, `title` or `label`.
- C9002 `missing-tab-index`: one of the ten interactive widgets has neither `takefocus` nor `tabindex`.

In the model (`a11y_checker.dfy`, module `A11yChecker`):

- The syntax nodes are a datatype.
- The checker is a class `Checker` whose fields `imports` and `messages` are updated by `VisitImport`, `VisitImportFrom` and `VisitCall`.
- Each method is proved against a specification function: `ImportBindings`, `ImportFromBindings` and `CallMessages`.
- `Step` and `Run` fold those functions over the nodes of a file, taken in visit order.
- `a11y_scenarios.dfy` replays the repository's lint inputs `tests/test_imports.py` and `examples/bad_example.py` through `Run`, file by file from a fresh checker. The messages follow the code. For `tests/test_imports.py` they are exactly the ones its comments expect. The comments of `examples/bad_example.py` use codes A1001 and A1002, which the checker does not define. They also flag the Button (line 9) only for its missing text, while the code reports C9002 for it as well, because Button is in both tables (tkinter_a11y_lint/plugin.py:27-47).
- The set `tkinter_imports` is created only in `__init__` (tkinter_a11y_lint/plugin.py:49-51), and `register` creates one checker per pylint run (lines 131-133). A name bound in one file therefore stays tracked for the files checked after it in the same run. `Run` and `RunAppend` state this directly, since the state at the end of one file is the start of the next.

**The contrast checker** (`wcag_contrast_checker.py`). This implements the
relative-luminance and contrast-ratio definitions of WCAG 2.1, and the thresholds of
Success Criteria 1.4.3 (Contrast Minimum) and 1.4.6 (Contrast Enhanced).
In the model (`wcag_contrast.dfy`, module `WcagContrast`):

- `HexToRgb` parses a hex colour into a `Result`. `FormatHex` is a reference encoder used to state that the parser round-trips.
- The power curve `x ** 2.4` of the sRGB linearisation is a parameter `gamma`. It is constrained only by `GammaCurve`: positive and at most `x` on (0, 1], and 1 at 1.
- The contrast ratio, the AA/AAA report of `check_wcag_contrast` and the grade of `get_contrast_grade` are exact functions over `real`.

`wrappers.dfy` holds the `Option` and `Result` datatypes.

## Model

| member | source | states |
|---|---|---|
| A11yChecker.Checker.constructor | tkinter_a11y_lint/plugin.py:49-51 | a fresh checker tracks no names and has reported nothing |
| A11yChecker.Checker.VisitImport | tkinter_a11y_lint/plugin.py:59-63 | the loop over the imported names adds exactly `ImportBindings(names)` to the tracked set and removes nothing |
| A11yChecker.Checker.VisitImportFrom | tkinter_a11y_lint/plugin.py:53-57 | the set grows by exactly `ImportFromBindings(modname, names)`: every alias-or-name when the module is `tkinter`, nothing otherwise |
| A11yChecker.Checker.VisitCall | tkinter_a11y_lint/plugin.py:65-84 | the early-return body appends exactly `CallMessages(imports, call)` and leaves the tracked set alone |
| A11yChecker.Checker.Visit | tkinter_a11y_lint/plugin.py:53-89 | dispatching one node changes the state exactly as `Step` says; an assignment (`visit_assign`) changes nothing |
| A11yChecker.Checker.VisitAll | tkinter_a11y_lint/plugin.py:53-89 | visiting a file's nodes in order yields the state `Run` computes |
| A11yChecker.ImportBindingsMembership | tkinter_a11y_lint/plugin.py:59-63 | a name is bound by `import ...` iff some entry's module is exactly `tkinter` and the name is that entry's alias, or `tkinter` when the alias is absent or empty |
| A11yChecker.OnlyExactTkinterImportBinds | tkinter_a11y_lint/plugin.py:61-63 | an import with no entry exactly `tkinter` (e.g. `tkinter.ttk`) binds nothing |
| A11yChecker.ImportFromBindingsMembership | tkinter_a11y_lint/plugin.py:53-57 | a name is bound by `from M import ...` iff M is exactly `tkinter` and the name is some entry's alias-or-name |
| A11yChecker.ClassifiedShapes | tkinter_a11y_lint/plugin.py:91-100 | a call is a tkinter widget call iff its callee is a tracked bare name or an attribute of a tracked bare name; nested chains, call results and other callees never are |
| A11yChecker.ClassifiedWidgetNameNonEmpty | tkinter_a11y_lint/plugin.py:70-72 | when no tracked name and no attribute name is empty (as in every parsed module), a classified call's widget name is non-empty, so the `if not widget_name` early return never fires |
| A11yChecker.HasKeywordIn | tkinter_a11y_lint/plugin.py:110-128 | the early-return keyword scan is true iff some keyword's name is in the wanted set; a `**kwargs` splat never matches |
| A11yChecker.HasKeywordInByNames | tkinter_a11y_lint/plugin.py:110-128 | the scan depends only on the set of keyword names written at the call |
| A11yChecker.MissingTextExactly | tkinter_a11y_lint/plugin.py:75-79 | C9001 is reported iff the call is classified, the widget is one of the five text widgets, and no keyword is `text`, `title` or `label` |
| A11yChecker.MissingTabExactly | tkinter_a11y_lint/plugin.py:82-84 | C9002 is reported iff the call is classified, the widget is one of the ten tab widgets, and no keyword is `takefocus` or `tabindex` |
| A11yChecker.CallMessagesShape | tkinter_a11y_lint/plugin.py:65-84 | one call adds at most two messages, each naming the widget, and C9001 comes before C9002 |
| A11yChecker.SilentCalls | tkinter_a11y_lint/plugin.py:65-84 | unclassified calls, and widgets in neither table (Frame, Tk), add nothing |
| A11yChecker.OnlyKeywordNamesMatter | tkinter_a11y_lint/plugin.py:110-128 | positional arguments, keyword values, keyword order and splats never change the messages; only the keyword names do |
| A11yChecker.RunMonotone | tkinter_a11y_lint/plugin.py:51-89 | over any node sequence the tracked set only grows, messages are only appended, and at most two are added per call node |
| A11yChecker.RunAppend | tkinter_a11y_lint/plugin.py:53-89 | visiting two node sequences one after the other is visiting their concatenation |
| A11yChecker.RunImportsIgnoreCalls | tkinter_a11y_lint/plugin.py:65-89 | calls and assignments never change the tracked set |
| A11yScenarios.AliasImportTestEffect | tests/test_imports.py:3-7 | `import tkinter as tk` binds `tk`; `tk.Tk()` is silent; `tk.Button(root1)` gets C9001 and C9002 |
| A11yScenarios.DirectImportTestEffect | tests/test_imports.py:9-14 | the from-import binds Button, Entry and Label; Button gets both messages, Entry gets C9002 and Label gets C9001 |
| A11yScenarios.OtherAliasTestEffect | tests/test_imports.py:16-19 | a second alias `tkinter_module` is tracked and its Button gets both messages |
| A11yScenarios.AccessibleTestEffect | tests/test_imports.py:21-24 | calls with the right keywords add no message |
| A11yScenarios.ImportStylesFile | tests/test_imports.py:1-24 | the whole file, from a fresh checker, yields exactly the messages its comments expect, in order, and tracks `tk`, `Button`, `Entry`, `Label` and `tkinter_module` |
| A11yScenarios.BadExampleHeadEffect | examples/bad_example.py:3-13 | `from tkinter import ttk` binds `ttk`; the keyword-less `tk.Button(root)` gets both messages and the keyword-less `tk.Label(root)` gets C9001 |
| A11yScenarios.BadExampleBodyEffect | examples/bad_example.py:15-22 | Entry gets C9002, Checkbutton gets both messages and Text gets C9002 |
| A11yScenarios.BadExampleTailEffect | examples/bad_example.py:24-29 | Listbox gets C9002; Frame and `root.mainloop()` add nothing |
| A11yScenarios.BadExampleFile | examples/bad_example.py:1-29 | the whole file, from a fresh checker, yields exactly eight messages in source order, the Button's C9002 among them |
| WcagContrast.LStripHash | wcag_contrast_checker.py:36 | `lstrip("#")` removes the whole leading run of `#` and nothing else: the result is a suffix, everything cut was `#`, and the result does not start with `#` |
| WcagContrast.ParsePair | wcag_contrast_checker.py:41 | a two-character slice parses iff both characters are hex digits |
| WcagContrast.HexToRgb | wcag_contrast_checker.py:23-43 | succeeds iff the stripped string is six hex digits; every failure is `InvalidHexColor` of the stripped string, with no partial tuple |
| WcagContrast.HexToRgbFormatHex | wcag_contrast_checker.py:23-43 | every colour survives formatting as `#rrggbb` and parsing back |
| WcagContrast.HexToRgbDecodes | wcag_contrast_checker.py:41 | a successful parse reads the pairs at offsets 0, 2 and 4 as base-16 channels: formatting the result gives back the stripped digits in lower case |
| WcagContrast.HexToRgbIgnoresCase | wcag_contrast_checker.py:41 | lower-casing the input changes neither whether it parses nor the channels |
| WcagContrast.HexToRgbLeadingHash | wcag_contrast_checker.py:36 | one more leading `#` never changes the outcome |
| WcagContrast.HexToRgbRed | wcag_contrast_checker.py:41 | `#ff0000` gives (255, 0, 0) |
| WcagContrast.HexToRgbRedUpperCase | wcag_contrast_checker.py:41 | `#FF0000` gives (255, 0, 0) |
| WcagContrast.HexToRgbRejectsLetters | wcag_contrast_checker.py:40-43 | `ZZZZZZ` fails with the invalid-colour error |
| WcagContrast.HexToRgbRejectsShort | wcag_contrast_checker.py:37-38 | `#fff` fails because three characters remain after stripping |
| WcagContrast.Linearize | wcag_contrast_checker.py:75-84 | a linearised channel lies in [0, 1]; it is 0 exactly for channel 0 and 1 exactly for channel 255 |
| WcagContrast.RelativeLuminance | wcag_contrast_checker.py:86-92 | luminance lies in [0, 1]; it is 0 exactly for black and 1 exactly for white, since the weights sum to 1 |
| WcagContrast.ContrastRatio | wcag_contrast_checker.py:122-127 | the lighter-over-darker ratio is never below 1 |
| WcagContrast.ContrastSymmetric | wcag_contrast_checker.py:122-127 | the ratio does not depend on argument order |
| WcagContrast.ContrastOfEqual | wcag_contrast_checker.py:122-127 | equal luminances give exactly 1 |
| WcagContrast.ContrastBounds | wcag_contrast_checker.py:109-127 | for luminances in [0, 1] the ratio is at most 21, and equals 21 iff the luminances are 1 and 0 |
| WcagContrast.CalculateContrastRatio | wcag_contrast_checker.py:95-127 | succeeds iff both colours are tuples or parse; otherwise it fails with the first colour's error; on success the ratio lies in [1, 21] |
| WcagContrast.CalculateContrastRatioSymmetric | wcag_contrast_checker.py:112-127 | swapping the colours changes neither success nor the ratio |
| WcagContrast.CalculateContrastRatioSame | wcag_contrast_checker.py:112-127 | any colour that converts, a tuple or a hex string that parses, has ratio exactly 1 against itself |
| WcagContrast.CalculateContrastRatioMaximal | wcag_contrast_checker.py:118-127 | the ratio is 21 exactly for white against black, in either order |
| WcagContrast.BlackOnWhite | wcag_contrast_checker.py:112-127 | `#000000` against `#FFFFFF` gives exactly 21 |
| WcagContrast.CheckWcagContrast | wcag_contrast_checker.py:130-184 | colour errors propagate unchanged; on success the report holds the ratio, in [1, 21], with the verdicts `Evaluate` gives |
| WcagContrast.UpperIsAaa | wcag_contrast_checker.py:169 | `level.upper() == "AAA"` iff the level is three letters a, each in either case |
| WcagContrast.EvaluateThresholds | wcag_contrast_checker.py:158-167 | large text needs 3.0 for AA and 4.5 for AAA; normal text needs 4.5 and 7.0; passing AAA implies passing AA; `text_size` is `large` or `normal` |
| WcagContrast.EvaluateLevel | wcag_contrast_checker.py:169-183 | an "aaa" level in any case selects the AAA threshold and `meets_requirement == passes_aaa`; every other string falls back to AA; `level_tested` is the upper-cased level |
| WcagContrast.GradeAgreesWithReport | wcag_contrast_checker.py:187-211 | the grade is AAA iff the ratio passes AAA, AA iff it passes AA but not AAA, and FAIL otherwise, for the same ratio and text size |
| WcagContrast.GradeMonotone | wcag_contrast_checker.py:187-211 | a higher ratio never gets a lower grade |

## Left out

- WcagContrast.HexToRgb: accepts exactly the ASCII hex digits. Python's `int(s, 16)` also accepts surrounding whitespace, a sign, underscores and non-ASCII digits, so for example `"-1-1-1"` parses there to (-1, -1, -1). The model does not reproduce that.
- WcagContrast.CheckWcagContrast: the report carries the unrounded real ratio. The source rounds it with `round(contrast_ratio, 2)` (line 177), which is floating point.
- WcagContrast.Linearize: the power curve `((s + 0.055) / 1.055) ** 2.4` is the parameter `gamma`, constrained only by `GammaCurve`. All arithmetic is on exact reals, not doubles. As a result, numeric results that depend on the curve's values are not derived. One example is the ratio of about 4.54 for `#767676` on white.
- WcagContrast.RelativeLuminance: channels are restricted to 0..255. An RGB tuple outside that range is accepted by the source and not modelled.
- WcagContrast.ParsePair: a pair parses iff both characters are ASCII hex digits. Python's `int(hex_color[i:i+2], 16)` (line 41) also accepts pairs such as `" f"`, `"+f"` and `"-f"`, and non-ASCII digits. The model rejects those pairs.
- WcagContrast.EvaluateLevel: `level_tested` is the level with ASCII letters upper-cased. Python's `level.upper()` (line 182) is Unicode-aware, so for a level with non-ASCII letters the strings differ. The AA/AAA choice is the same.
- WcagContrast.UpperIsAaa: `str.upper` is modelled on ASCII letters only. No non-ASCII character upper-cases to `A`, so the AAA decision is unaffected, but `levelTested` differs from Python for non-ASCII levels.
- The `msgs` descriptions, `name`, `priority`, the `BaseChecker` base class and `register` (tkinter_a11y_lint/plugin.py:3-24, 131-133) are pylint plumbing. `add_message` is modelled as appending the message id and widget name. The node's source location is not recorded.
- The host walks the syntax tree. The model takes the nodes as a sequence in visit order, with an assignment visited before the call on its right-hand side.
- Alias entries whose alias is an empty string are modelled with Python's truthiness (the empty alias falls back to the name). Python's grammar never produces one.
- tkinter_a11y_lint/plugin.py defines exactly two rules, C9001 and C9002, and keeps no state besides `tkinter_imports`. `visit_assign` is a no-op.
- test_contrast_integration.py is a demo that creates real tkinter widgets and prints. It is not modelled. Its `color_map` has mixed-case keys (`SystemWindowText`, `SystemWindow`, lines 38-41) that can never match after `.lower()`.
- tests/test_plugin.py runs pylint in a subprocess, and setup.py is packaging metadata. Neither is modelled.
