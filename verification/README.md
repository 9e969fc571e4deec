# blenderfds descriptor engine, modelled in Dafny

blenderfds is a Blender add-on that reads and writes input files for FDS
(Fire Dynamics Simulator). An FDS file is a list of *namelist records*
such as `&OBST ID='x' XB=0,1,0,1,0,1 /`. The core of the add-on is the
descriptor engine in `zzz_blenderfds/types.py`:

- *property descriptors* (`BFProp` and its specialisations) tie one Blender
  property of an element (a scene, an object or a material) to one FDS
  parameter;
- *namelist descriptors* (`BFNamelist`) group property descriptors into one
  record;
- the `subscribe` decorator registers every class and builds its
  `all_bf_props`;
- `BFScene` imports a whole file, and `BFObject` orders the export of an
  object's children.

This project models that engine. A descriptor class is the value
`Descriptors.Desc`, which holds the class attributes the engine reads
(label, default, export flag, children, kind, the BFNoAutoExportMod and
BFNoAutoImportMod mix-ins, the Blender type it binds to). An element is the
class `Host.Element`, whose `values` map the methods update. Python's
exceptions become the `Errors.Exc` datatype:

- `BF(e)` is a `BFException`;
- `Crash(reason)` is any other error (an `IndexError`, a `TypeError`, a
  refusal of the host, a `KeyError`). Such an error leaves every loop of the
  engine.

The modules follow the engine:

- `Props` covers property formatting, checks, export and import;
- `Records` covers the record text of `BFNamelist.format`;
- `Exporting` covers `BFNamelist.to_fds`;
- `Importing` covers `BFNamelist.from_fds`;
- `Namelists` holds the same three operations as imperative methods on a
  bound namelist;
- `Registry` covers `subscribe`;
- `Scenes` covers the scene import;
- `Objects` covers the export order of an object's children, and of the scene's top-level objects (`_children_to_fds` called with `self=None`).

Each imperative method is proved equal to the function of the same
operation, and the properties are proved about those functions.

Where the code is evidently wrong (see "## Findings"), the functions and
methods of the engine follow the corrected behaviour, and the code as
written is modelled beside it (`Scenes.ImportOrderAsWritten`,
`Props.PropImportAsWritten`, `Scenes.ImportIntoAsWritten`), with lemmas
saying where the two agree. Two places where the code and the description
of the design differ follow the code:

- **A failing namelist in the scene import.** The design says the scene
  import records the token's original text when a namelist fails. The code
  (`types.py:803-805`) records only the `free_texts` that the `BFException`
  carries. The compound error of `BFNamelist.from_fds` carries none. So
  `Scenes.Absorb` adds the error's free texts and nothing else.
- **An unmanaged parameter in a namelist import.** The design says the
  token's original text is stored. The code (`types.py:436`) stores
  `label=value-text`, and `Importing.TokenStep` does the same.

The string checks test for the two-character sequence U+2019 U+200C
(`types.py:476-477`, `521-522`), not for a lone right quote.
`Props.LoneRightQuoteAccepted` shows that a lone right quote passes both
checks.

## Model

| member | source | states |
|---|---|---|
| Values.AssignThenGet | zzz_blenderfds/types.py:157-166 | after a setattr the host accepts, getattr on the same idname gives back the value set |
| Host.Element.SetValue | zzz_blenderfds/types.py:162-166 | the host either stores the value and reports nothing, or refuses it, raises a non-BFException and leaves the values unchanged; an empty idname changes nothing |
| Descriptors.ExportedRule | zzz_blenderfds/types.py:168-179 | exported exactly when the export flag, if the class has one, is truthy and the value differs from `fds_default`, if there is one; a missing value differs from every default |
| Descriptors.SetExported | zzz_blenderfds/types.py:181-184 | with no export flag the values stay as they were; otherwise the flag is set to the given boolean; it fails exactly when the host refuses the flag |
| Descriptors.FindByLabel | zzz_blenderfds/types.py:427 | a found class is in the list and has the label; nothing is found exactly when no class in the list has the label |
| Descriptors.FindByName | zzz_blenderfds/types.py:738 | a found class is in the list and has the name; nothing is found exactly when no class has it |
| Descriptors.FreeProp | zzz_blenderfds/types.py:90-95 | `bf_prop_free` is one of the children and is a BFFreeProp; it is absent exactly when no child is a BFFreeProp |
| Descriptors.ClosureHolds | zzz_blenderfds/types.py:26-29 | each listed descriptor, and everything reachable from it, is in the transitive list |
| Descriptors.TransitiveIncludes | zzz_blenderfds/types.py:24-29 | a child and everything in the child's own `all_bf_props` are in the parent's |
| Props.Format | zzz_blenderfds/types.py:241-266 | no value gives no text; a text written for a labelled property starts with `LABEL=` |
| Props.FormatNothing | zzz_blenderfds/types.py:244-263 | `format` gives nothing exactly for a missing value and for the empty string; it raises exactly on an empty vector (the `values[0]` IndexError) |
| Props.IntsRoundTrip | zzz_blenderfds/types.py:255-256 | reading back the `LABEL=i,j,...` text of a non-empty integer vector gives the vector |
| Props.BoolsRoundTrip | zzz_blenderfds/types.py:253-254 | reading back the `.TRUE.`/`.FALSE.` text of a non-empty boolean vector gives the vector |
| Props.StrsRoundTrip | zzz_blenderfds/types.py:259-260 | a non-empty string vector is written as `'a','b'`: stripping the label, splitting on ',' and stripping the quotes gives the vector back, in order, when no element holds a comma or a single quote |
| Props.StringScalarRoundTrip | zzz_blenderfds/types.py:247-260 | a non-empty string scalar without single quotes is written between single quotes and reads back, with or without a label |
| Props.FormatStringScalar | zzz_blenderfds/types.py:241-266 | with a label, the generic `format` of a string scalar agrees with `BFStringProp.format` (480-485): `LABEL='value'`, nothing for "" |
| Props.IntScalarRoundTrip | zzz_blenderfds/types.py:248-251 | a scalar is written as the one-element tuple, and reads back as that tuple |
| Props.ColorScenario | zzz_blenderfds/types.py:244 | the example in the comment: `COLOR` with (3,4,5) is written `COLOR=3,4,5` |
| Text.DecimalRoundTrip | zzz_blenderfds/types.py:256 | `str` of any integer, negative ones included, parses back to the integer |
| Text.DecimalHasNoComma | zzz_blenderfds/types.py:256 | `str` of an integer never holds the `,` that separates vector items |
| Text.SplitJoin | zzz_blenderfds/types.py:253-256 | splitting a `,`-join of comma-free pieces at `,` gives the pieces back |
| Props.StringCheck | zzz_blenderfds/types.py:470-478 | the check passes exactly when the string has none of the forbidden characters and no U+2019 U+200C pair; the first failing test decides the message (`&`/`/`, then `#`, then quotes) |
| Props.StringFormat | zzz_blenderfds/types.py:480-485 | nothing exactly for the empty string; `LABEL='value'` with a label; the bare value without one |
| Props.IdScenario | zzz_blenderfds/types.py:480-485 | the example `ID='example'` |
| Props.FreeCheck | zzz_blenderfds/types.py:515-523 | the free-text check passes exactly when there are no forbidden characters and the count of single quotes is even; the messages are chosen in source order |
| Props.FreeOddQuotesFail | zzz_blenderfds/types.py:521-523 | an odd number of single quotes always fails |
| Props.FreeEvenQuotesPass | zzz_blenderfds/types.py:515-523 | matched single quotes and no forbidden character always pass |
| Props.LoneRightQuoteAccepted | zzz_blenderfds/types.py:476-477 | a lone U+2019 passes both string checks, because they test for U+2019 followed by U+200C |
| Props.CheckedStringStaysQuoted | zzz_blenderfds/types.py:470-485 | a string that passes the check is written with exactly its two delimiting quotes, reads back unchanged, and holds no `&`, `/` or `#` after the label |
| Props.NotExportedGivesNothing | zzz_blenderfds/types.py:268-271 | a property that is not exported gives nothing and runs no check |
| Props.PropToFdsNothingIff | zzz_blenderfds/types.py:268-274 | when `to_fds` returns, it gives no parameter exactly when the property is not exported, is a BFNoAutoExportMod, or has no value or the empty string |
| Props.ExportedParamIsLabelled | zzz_blenderfds/types.py:264-266 | a parameter written by a labelled property is a single `LABEL=` text |
| Props.NoAutoExportStillChecks | zzz_blenderfds/types.py:582-586 | a BFNoAutoExportMod property that is exported still runs its check and raises its error |
| Props.PropFromFdsEffect | zzz_blenderfds/types.py:278-288 | an accepted value is stored and then the export flag is set to true; a refused value changes nothing and raises a BFException that names the property |
| Props.NoAutoImportAsWritten | zzz_blenderfds/types.py:589-591 | as written, an import into a BFNoAutoImportMod property raises a TypeError and sets nothing; as intended, it does nothing; both agree on every other class |
| Records.FirstMulti | zzz_blenderfds/types.py:356-365 | the first multiparam, with only single parameters before it; none means every parameter is single |
| Records.FirstId | zzz_blenderfds/types.py:361-364 | the first `ID=` parameter, with none before it; none means no parameter starts with `ID=` |
| Records.PlainRecordShape | zzz_blenderfds/types.py:341-378 | without multiparams the record is the info lines, `&LABEL `, the parameters in order joined by `fds_separator`, then the separator and `/` |
| Records.ObstScenario | zzz_blenderfds/types.py:346 | the example `&OBST ID='x' XB=0 /` |
| Records.FreeNamelistRecord | zzz_blenderfds/types.py:350 | a namelist with no label uses its first parameter as the label |
| Records.FreeNamelistNeedsLabel | zzz_blenderfds/types.py:350 | with no label and no parameters, `params.pop(0)` raises an IndexError |
| Records.MultiparamExpansion | zzz_blenderfds/types.py:356-376 | one multiparam with n alternatives gives exactly n records, in order; each is `&LABEL alt`, then the other parameters without the `ID=` one, then `/` |
| Records.SecondMultiparamFails | zzz_blenderfds/types.py:367-368 | a second multiparam reaches `str.join` and raises a TypeError |
| Exporting.RaisingChildAddsOnlyItsError | zzz_blenderfds/types.py:391-399 | a child that raises a BFException adds its error and nothing else; the children before and after it contribute their parameters and infos as if it were absent |
| Exporting.CrashStops | zzz_blenderfds/types.py:391-399 | an error that is not a BFException ends the loop: the children after it are not visited |
| Exporting.GatheredErrors | zzz_blenderfds/types.py:391-399 | when no child crashed, the gathered errors are exactly the BFExceptions the children raised |
| Exporting.ErrorsAreTheChildrens | zzz_blenderfds/types.py:391-402 | the same fact stated for the namelist's children, and the errors are the children's BFExceptions one per raising child, in declared order |
| Exporting.CollectErrorsInOrder | zzz_blenderfds/types.py:391-399 | when no child crashed, the loop has appended each child's BFException once, in child order: the list equals the in-order filter `Exporting.BFErrorsOf` of the children's results |
| Exporting.CollectAroundError | zzz_blenderfds/types.py:391-399 | around a child that raised, the errors are non-empty and are the children's, and the infos are those of the children before and after it |
| Exporting.NamelistNothingIff | zzz_blenderfds/types.py:380-386 | `to_fds` returns None exactly when the namelist is not exported, or is a BFNoAutoExportMod whose check passed; when not exported nothing else happens |
| Exporting.NamelistAggregatesErrors | zzz_blenderfds/types.py:391-402 | one child's BFException does not stop the export: every child runs, all infos are kept, and one `Following errors reported` error is raised whose causes are the children's BFExceptions, one per raising child, in declared order |
| Exporting.NamelistPlainRecord | zzz_blenderfds/types.py:380-404 | when no child failed and all parameters are single, the result is the record of the gathered parameters, in declared order, after all infos |
| Namelists.SetExportedOn | zzz_blenderfds/types.py:181-184 | the element and result after `set_exported` are those of `Descriptors.SetExported` |
| Namelists.ImportProp | zzz_blenderfds/types.py:278-288 | the element and result after importing one parameter are those of the property import |
| Namelists.SetDefaultValue | zzz_blenderfds/types.py:186-190 | the displayed default, if any, is set on the element |
| Namelists.Namelist.SetDefault | zzz_blenderfds/types.py:192-196 | the defaults of the namelist and of every descriptor in `all_bf_props` are set in order, until the host refuses one |
| Namelists.Namelist.Format | zzz_blenderfds/types.py:341-378 | the text built is the record of the namelist's infos and parameters |
| Namelists.AssembleRecord | zzz_blenderfds/types.py:354-378 | the record built once the label is known |
| Namelists.FindMulti | zzz_blenderfds/types.py:356-360 | the index the scan stops at is the first multiparam, or the end when there is none |
| Namelists.FindId | zzz_blenderfds/types.py:361-364 | the index the scan stops at is the first `ID=` parameter, or the end |
| Namelists.Namelist.ToFds | zzz_blenderfds/types.py:380-404 | the result and the infos afterwards are those of the namelist export |
| Namelists.Namelist.CollectChildren | zzz_blenderfds/types.py:391-399 | the loop gathers what the children returned, and appends the gathered infos to the namelist's |
| Namelists.Namelist.VisitChild | zzz_blenderfds/types.py:392-399 | one child: its error, or its non-empty parameter and its infos |
| Namelists.Namelist.FromFds | zzz_blenderfds/types.py:408-444 | the element and result after the import are those of the namelist import |
| Namelists.Namelist.ImportTokensInto | zzz_blenderfds/types.py:424-436 | the token loop leaves the element, the free texts and the errors of the import of the ordered tokens |
| Namelists.Namelist.Conclude | zzz_blenderfds/types.py:438-444 | the free text is stored, then the compound error is raised or the export flag is set |
| Importing.ParamOrderFacts | zzz_blenderfds/types.py:424 | every token is imported once; SURF_ID comes after every other label; the other labels keep their order |
| Importing.Defaults | zzz_blenderfds/types.py:192-196 | resetting to defaults raises only when the host refuses a value |
| Importing.DefaultsSet | zzz_blenderfds/types.py:186-196 | after a reset that did not raise, each descriptor that has a displayed default, and that no later descriptor overrides, holds that default |
| Importing.ImportFreeTexts | zzz_blenderfds/types.py:424-436 | the free texts are exactly the unclaimed tokens, as `label=text`, in import order |
| Importing.UnmanagedListed | zzz_blenderfds/types.py:434-436 | every unclaimed token is among the free texts |
| Importing.FromFdsEmpty | zzz_blenderfds/types.py:415-416 | no tokens, no change and no error |
| Importing.FromFdsFlag | zzz_blenderfds/types.py:441-444 | the import reports nothing only if no token failed, and then the export flag is true; failed tokens always raise, and a BFException raised is the compound error of exactly those failures |
| Importing.FreeTextStored | zzz_blenderfds/types.py:438-439 | the free-text property holds the free texts joined by spaces, whether or not tokens failed |
| Importing.FreeTextKept | zzz_blenderfds/types.py:424-439 | every unmanaged parameter survives in the free-text property as `label=text` |
| Importing.TokenKeeps | zzz_blenderfds/types.py:425-436 | a token whose descriptor writes neither the property nor its export flag leaves that property as it was |
| Importing.ValueSurvives | zzz_blenderfds/types.py:424-433 | after the token loop a managed property holds the value of its token, when the host accepted it and no later token writes that property |
| Importing.FinishKeeps | zzz_blenderfds/types.py:438-444 | storing the free text, raising and setting the export flag touch only the free-text property and the flag |
| Importing.ManagedValueStored | zzz_blenderfds/types.py:408-444 | after `from_fds` a managed property holds the imported value, whether or not other tokens failed, when the host accepted it and nothing imported later writes it |
| Registry.GatheredIsClosure | zzz_blenderfds/types.py:26-29 | when the children's lists are complete, the gathering loop gives the transitive list |
| Registry.SubscribeBottomUp | zzz_blenderfds/types.py:16-31 | subscribing a class after its children gives it its whole transitive `all_bf_props`: the export flag, then each child followed by everything under it |
| Registry.SubscribeKeepsBuilt | zzz_blenderfds/types.py:16-31 | subscribing bottom-up keeps every list built so far complete |
| Registry.SubscribeTooEarly | zzz_blenderfds/types.py:27-29 | a class subscribed before its child misses the child's descendants |
| Registry.Registry.Subscribe | zzz_blenderfds/types.py:16-31 | the class joins `BFNamelist.all` or `BFProp.all`, and its `all_bf_props` is set to the list `subscribe` builds |
| Registry.Registry.AllBfProps | zzz_blenderfds/types.py:24-29 | the loop builds the export flag followed by each child and the child's `all_bf_props` |
| Order.SortByName | zzz_blenderfds/types.py:887 | the result is a permutation of the input, sorted by name |
| Text.LessTotal | zzz_blenderfds/types.py:887 | the string order compares any two different names |
| Text.LessTransitive | zzz_blenderfds/types.py:887 | the string order is transitive |
| Order.FalseFirstPermutes | zzz_blenderfds/types.py:888 | a stable sort on a boolean key is a permutation |
| Order.FalseFirstOrders | zzz_blenderfds/types.py:888 | after it, every false key comes before every true key |
| Order.FalseFirstStable | zzz_blenderfds/types.py:888 | the elements with the same key keep their order |
| Objects.ChildOrderFacts | zzz_blenderfds/types.py:883-888 | each child of `parent`, or each top-level object when it is None (the call at 667), is exported exactly once and nothing else is; ON_MESH children come first, and each group is in name order |
| Objects.KeptConcat | zzz_blenderfds/types.py:890-894 | dropping the empty bodies changes no text, and what is kept is non-empty |
| Objects.BodiesText | zzz_blenderfds/types.py:890-898 | the bodies give the children's text, plus a newline when there is any |
| Objects.ChildrenToFds | zzz_blenderfds/types.py:883-898 | the bodies returned are the non-empty ones of the children of `parent`, or of the top-level objects when it is None, in export order, closed by a newline when there is any |
| Scenes.ImportedNamelist | zzz_blenderfds/types.py:727-739 | the namelist registered for the label, else `ON_free` for a token with geometry; a KeyError exactly when that is needed and missing; nothing exactly when neither applies |
| Scenes.ImportOrderAsWrittenIsIdentity | zzz_blenderfds/types.py:790 | as written, the sort never moves a token |
| Scenes.SurfAfterObst | zzz_blenderfds/types.py:789-790 | as written, a SURF after an OBST stays after it; the corrected order imports it first |
| Scenes.ImportOrderAgrees | zzz_blenderfds/types.py:789-790 | on a file without SURF namelists the corrected order and the order as written are both the file order |
| Scenes.ImportOrderFacts | zzz_blenderfds/types.py:789-790 | the corrected order imports every namelist once, every SURF before the others, and the others in file order |
| Scenes.MergeOverflowKeeps | zzz_blenderfds/types.py:766-775 | the HEAD free text keeps every new text and its previous contents; with nothing new it is unchanged |
| Scenes.NoAutoImportNamelistAsWritten | zzz_blenderfds/types.py:801-805 | as written, importing into a BFNoAutoImportMod namelist raises a TypeError, which ends the scene import; the corrected import changes nothing |
| Scenes.ImportIntoAgrees | zzz_blenderfds/types.py:801-802 | on every namelist class without BFNoAutoImportMod, the call as written is the corrected import |
| Scenes.SceneCrashStops | zzz_blenderfds/types.py:801-805 | an error that is not a BFException ends the scene loop |
| Scenes.SceneTextsGrow | zzz_blenderfds/types.py:801-808 | the scene's free texts only grow |
| Scenes.UnmanagedTokenKept | zzz_blenderfds/types.py:806-808 | a namelist nothing manages is kept verbatim among the free texts |
| Scenes.ErrorsStay | zzz_blenderfds/types.py:783-805 | once an error is recorded it stays recorded |
| Scenes.SceneFromFdsFacts | zzz_blenderfds/types.py:777-815 | the summary error is raised exactly when something failed, a tokenizer error included; every free text and the old contents reach the HEAD free text; an error that is not a BFException passes through and leaves the text alone |
| Scenes.UnmanagedTokenSaved | zzz_blenderfds/types.py:777-815 | every unmanaged namelist of the file ends up in the HEAD free text |
| Scenes.Scene.SaveUnmanaged | zzz_blenderfds/types.py:766-775 | the HEAD free text becomes the merge of the new texts and its old contents |
| Scenes.Scene.Target | zzz_blenderfds/types.py:741-764 | the scene itself for a scene namelist; otherwise a new element named `New LABEL` and linked to its namelist class |
| Scenes.Scene.VisitManaged | zzz_blenderfds/types.py:799-805 | importing into the target element folds the namelist's outcome into the scene state |
| Scenes.Scene.Visit | zzz_blenderfds/types.py:792-808 | one token of the scene loop, as the scene step describes |
| Scenes.Scene.Advance | zzz_blenderfds/types.py:790-808 | one turn of the loop moves the state one token along, or stops it at an error that is not a BFException |
| Scenes.Scene.ImportAll | zzz_blenderfds/types.py:789-808 | the loop leaves the state of the scene import of the ordered tokens |
| Scenes.Scene.FromFds | zzz_blenderfds/types.py:777-815 | the scene, the new elements, the HEAD free text and the result are those of the scene import |

## Left out

- Blender itself is not modelled. An element is a map of property values plus a parameter `accepts`, which says which assignments the host takes. Property types, `maxlen` and the UI's own checks are not modelled.
- The UI is not modelled: `draw`, `register`/`unregister`, panels and `get_enum_item`. It does not affect export or import.
- Python's `"{:.{}f}"` float formatting is the parameter `FloatText`. So there is no round trip for float vectors.
- Props.Format: a string containing a comma or a single quote is written as the code writes it, but `Props.StrsRoundTrip` and `Props.StringScalarRoundTrip` do not read it back. FDS quoting rules for such strings are not part of this model.
- The tokenizer `fds.to_py.tokenize` is not part of this model. Its outcome (the tokens or its error) is an input of `Scenes.Scene.FromFds`.
- The HEAD free-text file (`fds.head.set_free_text_file`, `bpy.data.texts`) is the string field `overflow` of `Scenes.Scene`.
- `geometry.utils.get_new_object` and `get_new_material` are not part of this model. Their effect is a new `Host.Element` in `created`. Its parent link and `set_default_appearance` are display matters and are not modelled. A new element holds only its `bf_namelist_cls`; the defaults Blender gives every registered bf property are not in its values, so reading one of them before it is set gives nothing.
- `exceptions.py` is not part of this model. The compound errors built by the namelists carry no free texts.
- `utils.py` (`ClsList`, `is_iterable`) is not part of this model. A lookup by label or name takes the first match, and `is_iterable` is false on strings.
- Checks that subclasses outside this file define are given by their outcome, as `Kind.Plain` (the infos appended and the message raised). The `to_fds` of geometry properties is given by the parameter it returns.
- A child object's own `to_fds`, used in `_children_to_fds`, is the parameter `render`.
- Python exceptions other than BFException are kept by name (`Crash`). Their messages are not modelled.
- Props.Check: any value of a string-kind property that is not a string scalar raises the TypeError of `'&' in value`. For a vector value, Python's `in` on a tuple would not raise (types.py:472-477, 517-521). Both string kinds are `StringProperty` (types.py:463, 508), so the host never holds such a value.
- Props.PropFromFds: the message is "Error importing value" without the rendered value, because Python's `str()` of an arbitrary value is not modelled.
- The tokens dict of `BFNamelist.from_fds` is a sequence in insertion order, and its keys are not required to be distinct.
- Descriptors.FindByLabel, Descriptors.FindByName and Descriptors.FreeProp: do not state that the match is the first one, because `ClsList` is not part of this model.
- Scenes.Scene.FromFds and Scenes.SceneFromFds: import in the corrected order `Scenes.ImportOrder` (SURF namelists first), not the file order the sort at types.py:790 leaves; they agree on files without SURF namelists (`Scenes.ImportOrderAgrees`). They also use the corrected namelist import, so a BFNoAutoImportMod namelist changes nothing, where the code raises a TypeError at types.py:802 that ends the scene import before the HEAD free text is saved; the two agree on every other class (`Scenes.ImportIntoAgrees`).
- Namelists.Namelist.FromFds and Importing.NamelistFromFds: follow the corrected imports. A BFNoAutoImportMod namelist imports nothing, and a token of a BFNoAutoImportMod property changes nothing and reports nothing. As written (types.py:431-433), that token adds a TypeError to the errors, so the namelist raises its compound error and its export flag is not set (types.py:441-444).
- Namelists.Namelist.ImportTokensInto and Importing.TokenStep: managed tokens go through the corrected `Props.PropImport`, not the TypeError path of `Props.PropImportAsWritten`; the two agree on every property class without BFNoAutoImportMod (`Props.NoAutoImportAsWritten`).
- Namelists.ImportProp: runs the corrected `Props.PropImport`; as written, a BFNoAutoImportMod property raises a TypeError (`Props.PropImportAsWritten`).
- Order.SortByName: stability is not proved, because Blender object names are unique.
- Namelists.Namelist.CollectChildren: it receives the children's `to_fds` results, which are pure functions of the element, computed before the loop. It does not interleave them with the loop.
- Scenes.Scene.ImportAll: the scene loop and its lemmas hold for any namelist import (`Scenes.NamelistImport`). `Scenes.EngineImport` is the engine's import, and the methods require `Scenes.Runs` to tie the two together.
- The `DEBUG` prints are not modelled.

## Findings

| source | as written | input that shows it | evidently intended | confidence | as-written member | corrected member |
|---|---|---|---|---|---|---|
| zzz_blenderfds/types.py:790 | the sort key `k[0] != "SURF_ID"` compares the namelist label with a parameter label, so no token moves and the comment "first SURFs" is not honoured | an OBST namelist with `SURF_ID='fire'` before `&SURF ID='fire'` (Scenes.SurfAfterObst) | SURF namelists are imported before all others, so that the boundary conditions exist when SURF_ID names them | medium, not executed | Scenes.ImportOrderAsWritten | Scenes.ImportOrder |
| zzz_blenderfds/types.py:589-591 | `BFNoAutoImportMod.from_fds(self, context)` takes no value, but `BFNamelist.from_fds` calls `from_fds(context, value)` (types.py:431); the TypeError is caught at types.py:432 and makes the whole namelist raise its compound error | a managed parameter whose property class mixes in BFNoAutoImportMod (Props.NoAutoImportAsWritten) | the import of such a property does nothing and reports nothing | medium, not executed | Props.PropImportAsWritten | Props.PropImport |
| zzz_blenderfds/types.py:589-591 | the scene calls `from_fds(context, fds_params)` on the namelist (types.py:802); on a namelist class mixing in BFNoAutoImportMod this raises a TypeError, which `except BFException` does not catch, so the scene import ends | a namelist token whose class mixes in BFNoAutoImportMod (Scenes.NoAutoImportNamelistAsWritten) | the import of such a namelist does nothing and the scene import goes on | medium, not executed | Scenes.ImportIntoAsWritten | Importing.NamelistFromFds |
