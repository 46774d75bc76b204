# templify core in Dafny

templify fills placeholders in text and in JSON-like data. This project models three parts of it as
pure Dafny functions and proves what the library and its examples promise.

- **Placeholder recognition** (`is_placeholder`, `extract_placeholder_value`). The module is
  `Placeholders`, with Python's `str.strip`, `split`, `startswith` and `str(int)` in `Text` and string `repr` in `Quoting`.
- **The substitution engine** (`render_text`, `render_data`).
  - The model has:
    - dicts as insertion-ordered entry lists (`Values`);
    - dotted-path lookup (`Paths`);
    - the placeholder grammar (`Grammar`);
    - the tri-state missing-key policy `Keep` / `Default` / `Raise` and the shape-preserving tree walk (`Render`).
  - Its properties are in `RenderFacts` and `RenderTree`. The test cases worked through are in `RenderExamples`.
- **The UPS shipment workflows** of `examples/ups_shipment_templify.py`, `examples/ups_shipment_example.py`
  and `tests/test_ups_shipments.py`.
  - The modules:
    - the ceiling-division batching plan (`Batching`);
    - the package dicts and numbered package runs (`Packages`);
    - the per-shipment labels and package runs (`Shipments`);
    - the request layout (`UpsRequest`);
    - one module per workflow (`UpsTemplify`, `UpsExample`, `UpsTests`).
  - Each workflow renders its request template through the engine model. The batching loop is
    checked against the one reference plan in `Batching`.

Semantics fixed by the model:

- **Source of the engine's behaviour.** `render_text` and `render_data` are stubs that raise
  `NotImplementedError` (src/templify/core.py:18, src/templify/core.py:32), so the engine follows
  their docstrings and the tests, not the code as written.
- **Placeholder grammar.**
  - A single-brace placeholder is `{` + one or more characters that are not braces + `}`.
  - A double-brace placeholder is `{{` + the shortest text up to the next `}}`.
  - A string is read with the double-brace scan when that scan finds a placeholder, and with the single-brace scan otherwise.
- **Queries.** A double-brace body containing `|` must be `path | jmespath("expr")`, with either quote.
  - The path ends at the first `|`. The quoted expression may itself contain `|`, as JMESPath's pipe and or operators do.
  - Any other body with `|` is an `InvalidExpression` error.
  - The JMESPath evaluator is a parameter `eval` of every rendering function.
- **Dicts.** A dict is a sequence of entries and lookup takes the last binding, so `{**a, **b}` is `a + b` (`Values.Merge`).
- **Lookup.** A dotted path walks nested dicts one key per segment. A missing key or a non-dict on the way means "missing".
- **Text of values.** Values are turned into text the way Python's `str` does it: `5` gives `"5"`, `False` gives `"False"`, and lists and dicts use their `repr`.
  - Inside a list or a dict a string appears as its `repr` (module `Quoting`).
  - The quotes are `"` when the string holds a `'` and no `"`, and `'` otherwise.
  - A backslash, the chosen quote, tab, newline and carriage return get a backslash escape. The other control
    characters, DEL, no-break space and soft hyphen are written `\xhh`.
- **Whole-leaf placeholders.** A tree leaf that is exactly one placeholder resolving to a list or a dict is replaced by that value. Every other leaf becomes the rendered string.
- **Default policy.** `Keep` is the default policy of `render_text`, `render_data` and the UPS workflows.
  - The one test that renders a missing key without naming a policy is `render_text("Hello {name}!", {"invalid": "context"})`
    (tests/test_jinja2.py:162-164). It expects the placeholder kept verbatim.
  - No test calls `render_data` with a missing key. Using `Keep` there as well is a modelling choice carried over from that test.
- **Zero shipment size.** `packages_per_shipment == 0` makes the shipment methods return `Failure(ZeroDivision)`,
  where Python raises `ZeroDivisionError`.

## Model

| member | source | states |
|---|---|---|
| Placeholders.IsPlaceholder | src/templify/utils.py:16-21 | a string is a placeholder exactly when it has at least two characters, starts with `{` and ends with `}`; the `{{`/`}}` alternative adds no case |
| Placeholders.ExtractPlaceholderValue | src/templify/utils.py:35-46 | a non-placeholder comes back unchanged; for a placeholder the result has no surrounding whitespace, is a contiguous infix strictly inside the outer braces, and is at least two characters shorter; the `\| jmespath` test does not change the result |
| Placeholders.StrippedPlaceholderIsInner | src/templify/utils.py:39-46 | stripping braces and then whitespace from a placeholder leaves an infix that starts after its first and ends before its last character |
| Placeholders.ExtractOfPadded | src/templify/utils.py:39-46 | braces, optional whitespace, a stripped body, optional whitespace and braces extract to exactly that body |
| Placeholders.IsPlaceholderExamples | tests/test_utils.py:9-13 | `{user.name}` and the `{{ products \| jmespath(...) }}` string are placeholders; `regular text`, `{unclosed` and `unopened}` are not |
| Placeholders.ExtractSimpleExample | tests/test_utils.py:18 | `{user.name}` extracts to `user.name` |
| Placeholders.ExtractQueryExample | tests/test_utils.py:19-22 | the query placeholder extracts to its whole trimmed expression, pipe included |
| Placeholders.ExtractPlainExample | tests/test_utils.py:23 | plain text is returned as it is |
| Text.Strip | src/templify/utils.py:39 | `s.strip(chars)` is an infix of `s` surrounded only by `chars` characters and neither starting nor ending with one |
| Text.StripUnique | src/templify/utils.py:46 | any infix with those two properties is the strip result, so the contract determines stripping |
| Text.ParseNatToString | examples/ups_shipment_templify.py:97 | reading back the decimal text of a number gives the number |
| Text.IntToStringInjective | examples/ups_shipment_templify.py:97 | different integers have different decimal texts |
| Values.Merge | examples/ups_shipment_example.py:173-182 | after `{**a, **b}` every key bound in `b` has `b`'s value and every other key keeps `a`'s binding |
| Values.NestedStringsQuoted | src/templify/core.py:7-18 | `str(["it's"])` is `["it's"]` and `str({"k": "v"})` is `{'k': 'v'}`, as Python writes them |
| Quoting.ReprRoundTrip | src/templify/core.py:7-18 | reading back the quoted and escaped text of a string gives the string, so different strings never look alike inside a rendered list or dict |
| Quoting.PlainRepr | src/templify/core.py:7-18 | printable ASCII text without a backslash appears unchanged between quotes, double quotes exactly when it holds a `'` |
| Quoting.BothQuotesRepr | src/templify/core.py:7-18 | a string holding both quote characters is single-quoted and each `'` in it is escaped |
| Paths.WalkAppend | tests/test_core.py:9-13 | walking a path `p + q` is walking `p`, then `q` from where `p` ended |
| Paths.ResolveJoin | tests/test_core.py:9-13 | resolving the dotted join of dot-free keys walks exactly those keys through nested dicts |
| Paths.ResolveStep | tests/test_core.py:9-13 | one more key present in the dict a path reaches resolves to that key's value |
| Grammar.ScanSingle | src/templify/core.py:7-18 | the single-brace reading spells the template back exactly, and each placeholder in it is `{` + non-brace characters + `}` |
| Grammar.ScanDouble | src/templify/core.py:7-18 | the double-brace reading spells the template back exactly, and each placeholder in it is `{{` + a body with no `}}` + `}}` |
| Grammar.Tokenize | src/templify/core.py:7-18 | the chosen reading spells the template back exactly; it is the single-brace reading unless it contains a placeholder |
| Grammar.TokenizeAssembled | src/templify/core.py:7-18 | a template written as literal runs without `{` and well-formed placeholders is read back as exactly those placeholders |
| Render.ParseHole | tests/test_core.py:38-41 | a placeholder is a path unless it is double-brace with a `\|`; only such a body can be rejected, as an invalid expression; paths are whitespace-stripped |
| Render.ParseQuery | tests/test_core.py:38-41 | a rejected body is reported as an invalid expression; an accepted one contains `\|` and yields a query whose path is whitespace-stripped and free of `\|` |
| Render.DefaultText | tests/test_jinja2.py:184-201 | the text substituted under `Default` is `str` of the typed default and is one of `0`, `[]`, `False` or empty |
| Render.RenderLeaf | examples/ups_shipment_templify.py:21-26 | a leaf renders to a non-string value only when it reads as a single placeholder |
| Render.RenderData | src/templify/core.py:21-32 | a successful render keeps the tree's shape: the same keys in the same order, the same list lengths, scalars unchanged, string leaves strings unless they are whole placeholders |
| Render.RenderItems | src/templify/core.py:21-32 | a rendered list has the template's length and each element conforms to its template |
| Render.RenderFields | src/templify/core.py:21-32 | a rendered dict has the template's keys in order and each value conforms to its template |
| Render.LeafConforms | tests/test_ups_shipment_templify.py:134-145 | a leaf that renders to a list or a dict satisfies `is_placeholder` |
| Render.WholeHoleIsPlaceholder | src/templify/utils.py:16-21 | a string the engine reads as exactly one placeholder satisfies `is_placeholder` |
| RenderFacts.RenderTokensAppend | src/templify/core.py:7-18 | rendering concatenated text is rendering both parts and concatenating, with the first error winning |
| RenderFacts.RenderAssembled | tests/test_jinja2.py:221-240 | a template rendered whole equals its literal runs copied and each placeholder rendered on its own |
| RenderFacts.RenderTextIdentity | src/templify/core.py:7-18 | text the engine reads without placeholders renders to itself under every policy |
| RenderFacts.RenderTextBraceFree | tests/test_ups_shipment_templify.py:28-30 | text without `{` renders to itself under every policy |
| RenderFacts.RenderDataIdentity | tests/test_ups_shipments.py:296-303 | a tree with no `{` in any leaf comes back unchanged under every policy |
| RenderFacts.PolicyOnlyForMissing | tests/test_jinja2.py:167-218 | two policies render a token differently only when it is a well-formed placeholder whose path is missing; whatever `Raise` renders every policy renders alike, and a failure under any policy is the same failure under `Raise` |
| RenderFacts.RaiseIffResolved | tests/test_jinja2.py:204-218 | under `Raise` rendering succeeds exactly when every placeholder resolves |
| RenderFacts.PolicyIrrelevant | tests/test_jinja2.py:140-152 | when every placeholder resolves, all three policies render the same |
| RenderFacts.KeepAllMissing | tests/test_jinja2.py:167-181 | under `Keep` placeholders that are all missing come out verbatim, braces and spacing included |
| RenderFacts.KeepTemplateVerbatim | tests/test_jinja2.py:162-164 | under `Keep` a template whose placeholders are all missing renders to itself |
| RenderFacts.LenientNeverMissing | tests/test_jinja2.py:184-201 | under `Keep` and `Default` no render fails for a missing name, and a template without queries always renders |
| RenderFacts.RaiseReportsMissing | tests/test_jinja2.py:204-218 | under `Raise` a path placeholder that does not resolve fails naming its stripped path |
| RenderFacts.SpliceWholeHole | examples/ups_shipment_templify.py:21-26 | a leaf that is one placeholder resolving to a list or dict renders to that value itself |
| RenderFacts.ScalarWholeHole | tests/test_core.py:23-31 | a leaf that is one placeholder resolving to a scalar renders to the scalar's text |
| RenderFacts.DoubleLikeSingle | tests/test_jinja2.py:151-152 | `{{ name }}` without a pipe resolves like `{name}` and, except for how `Keep` echoes it, renders the same |
| RenderFacts.RenderFoundPath | tests/test_core.py:7-13 | a padded path that resolves renders to the text of its value under every policy |
| RenderFacts.RenderMissingPath | tests/test_jinja2.py:167-218 | a padded path that does not resolve is kept verbatim, replaced by its typed default, or reported missing, by policy |
| RenderFacts.ParseQueryHole | tests/test_core.py:38-41 | `{{ path \| jmespath("expr") }}` with any padding and either quote reads as a query of `expr` on `path`, for every expression, pipes included |
| RenderFacts.PipedExpression | tests/test_core.py:38-41 | `{{ items \| jmespath("[*].a \| [0]") }}` and `{{ items \| jmespath("a \|\| b") }}` read as queries on `items` with exactly those expressions |
| RenderFacts.RenderQuery | tests/test_core.py:35-56 | such a query renders to the text of the evaluator's result on the value at `path`, or fails with the evaluator's failure |
| RenderTree.RenderFieldsPointwise | src/templify/core.py:21-32 | a dict renders to given entries exactly when they have the template's keys in order and each value is the render of the template's value |
| RenderTree.RenderItemsPointwise | src/templify/core.py:21-32 | a list renders to given elements exactly when there are as many and each is the render of its template element |
| RenderTree.RenderedGet | tests/test_ups_shipment_templify.py:137-145 | a rendered dict binds the same keys as its template, each to the render of the template's value |
| RenderTree.RenderedWalk | tests/test_ups_shipments.py:296-299 | a path present in the template is present in the rendered tree, holding the render of what the template holds there |
| RenderTree.RenderedHole | examples/ups_shipment_templify.py:26 | where the template holds the leaf `{key}`, the rendered tree holds what the context binds `key` to, spliced |
| RenderTree.LenientTreeSucceeds | tests/test_jinja2.py:162-181 | under `Keep` or `Default` a tree without query placeholders always renders |
| RenderExamples.WelcomeExample | tests/test_core.py:7-13 | the welcome template with Alice and 5 notifications renders to the expected sentence |
| RenderExamples.SalesReportExample | tests/test_core.py:16-32 | the nested sales report renders with March, 1500 and the date filled in, keeping its structure |
| RenderExamples.ProductsExample | tests/test_core.py:35-56 | each product query renders to its prefix followed by the evaluator's answer on the product list |
| RenderExamples.HelloExample | tests/test_jinja2.py:140-152 | `Hello {name}!` and `Hello {{ name }}!` with John both render to `Hello John!` |
| RenderExamples.HelloMissingExample | tests/test_jinja2.py:162-218 | without `name` both forms are kept verbatim under `Keep`, fail naming `name` under `Raise`, and drop the name under `Default` |
| RenderExamples.DefaultsExample | tests/test_jinja2.py:184-201 | `missing_num`, `missing_list`, `missing_bool` and `missing_str` default to `0`, `[]`, `False` and empty |
| RenderExamples.MixedExample | tests/test_jinja2.py:221-240 | with only `name` bound, `Keep` keeps `{{ age }}`, `Default` drops it and `Raise` fails naming `age` |
| RenderExamples.DataStringExample | tests/test_jinja2.py:243-250 | `render_data` on the bare string `Hello {{ name }}!` renders it as text to `Hello John!` |
| Batching.FloorDiv | examples/ups_shipment_templify.py:154 | Python's `//` rounds toward negative infinity: `q*b <= a < q*b + b` for positive `b` and mirrored for negative |
| Batching.Min | examples/ups_shipment_templify.py:160 | `min` is one of its arguments and no larger than either |
| Batching.CountIsCeiling | examples/ups_shipment_templify.py:154 | the shipment count is the ceiling of `total / per`: room for every package and no spare shipment |
| Batching.PlanLength | examples/ups_shipment_example.py:245-248 | the loop visits exactly the computed number of shipments, and none exactly when there are no packages |
| Batching.BatchSize | examples/ups_shipment_templify.py:159-161 | every shipment holds between 1 and `per` packages |
| Batching.PlanConsecutive | examples/ups_shipment_example.py:250-252 | the first shipment starts at package 1, each next one right after the previous, and the last ends at package `total` |
| Batching.PlanSum | tests/test_ups_shipments.py:254-256 | the shipments' package counts add up to `total` |
| Batching.ThirtyAtTwenty | tests/test_ups_shipments.py:311-326 | 30 packages at 20 per shipment give two shipments: 20 from package 1 and 10 from package 21 |
| Packages.CreatePackagesData | examples/ups_shipment_example.py:148-159 | `create_packages_data(n, start)` returns `n` packages (none for `n <= 0`), the `k`-th numbered `start + k` with the standard measures |
| Packages.PackageIdOf | examples/ups_shipment_example.py:144 | a package's `PackageID` is `Package <its number>` |
| Packages.PackageIdInjective | tests/test_ups_shipments.py:301-303 | different package numbers give different identifiers |
| Packages.PackagesAppend | examples/ups_shipment_templify.py:164 | a run followed by a run continuing its numbering is one run |
| Packages.PackagesNumbered | tests/test_ups_shipments.py:283-303 | a run of `n` packages from `start` has `n` packages numbered `start` to `start + n - 1` in order |
| Packages.PackageUnits | tests/test_ups_shipments.py:355-358 | every package is measured in `CM` and weighed in `KG` |
| Packages.PackagePlain | examples/ups_shipment_example.py:135-145 | a generated package holds no placeholder |
| Shipments.ConsecutiveRuns | examples/ups_shipment_templify.py:157-171 | package runs cut at consecutive batches, laid end to end, are one run from the first batch's start |
| Shipments.AllPackagesInOrder | examples/ups_shipment_templify.py:157-171 | across all shipments the packages are `Package 1` .. `Package total`, each once and in order |
| Shipments.ShipmentSizes | examples/ups_shipment_templify.py:159-164 | each shipment carries between 1 and `per` packages |
| Shipments.ShipmentStart | examples/ups_shipment_templify.py:159 | shipment `i` starts at package `i * per + 1` |
| Shipments.ContextLabelsDistinct | examples/ups_shipment_templify.py:167-169 | different shipments get different customer-context labels |
| Shipments.ThirtyAtTwentyShipments | tests/test_ups_shipment_templify.py:84-116 | 30 at 20 gives shipments labelled `-1` and `-2`, described as 1 and 2 of 2, with 20 and 10 packages, the second from `Package 21` |
| UpsRequest.LabelsRendered | tests/test_ups_shipments.py:322-328 | the customer context and description come out where the template put their placeholders |
| UpsRequest.ShellRenders | examples/ups_shipment_example.py:15-66 | the request wrapper renders part by part, keeping the fixed PDF label specification |
| UpsTemplify.PackageRenders | examples/ups_shipment_templify.py:88-104 | `create_package_data` renders the package template to exactly the package dict with the five values filled in and the fixed `02`, `CM` and `KG` codes |
| UpsTemplify.PackageBindings | examples/ups_shipment_templify.py:96-102 | the package context binds the identifier and the four measures |
| UpsTemplify.CreatePackagesData | examples/ups_shipment_templify.py:107-118 | the templated `create_packages_data` builds the same packages as the direct one |
| UpsTemplify.LabelBindings | examples/ups_shipment_templify.py:129-137 | the shipment context binds the two labels and the package list |
| UpsTemplify.PartyBindings | examples/ups_shipment_templify.py:132-136 | the shipment context binds the four party and service templates, the shipper template twice |
| UpsTemplify.ShipmentRenders | tests/test_ups_shipment_templify.py:134-145 | the shipment part renders with the description filled in, the party templates spliced as they are and the package list spliced |
| UpsTemplify.CreateShipmentRenders | examples/ups_shipment_templify.py:121-141 | `create_shipment` always succeeds and yields the request holding the labels, the fixed parties and the packages |
| UpsTemplify.PayloadSummary | tests/test_ups_shipment_templify.py:63-81 | reading back a shipment request's labels and package list gives the shipment it was built from |
| UpsTemplify.ShipmentStep | examples/ups_shipment_templify.py:157-171 | each loop step renders the planned shipment's request |
| UpsTemplify.CreateShipments | examples/ups_shipment_templify.py:144-173 | fails exactly for a zero shipment size; otherwise one request per planned shipment, each carrying that shipment's labels and packages |
| UpsExample.PartiesOver | examples/ups_shipment_example.py:173-182 | in the merged context a key takes its value from the last party dict binding it, else from the labels |
| UpsExample.TemplateQueryFree | examples/ups_shipment_example.py:15-66 | the request template holds no query placeholder whenever the package value standing in it holds none |
| UpsExample.LabelHoles | examples/ups_shipment_example.py:17-19 | the template's customer context and description are the `{customer_context}` and `{shipment_description}` leaves |
| UpsExample.UpsShipmentSucceeds | examples/ups_shipment_example.py:186-201 | `create_ups_shipment` renders for any labels, packages and party dicts |
| UpsExample.LabelBindings | examples/ups_shipment_example.py:173-176 | when no party dict rebinds them, the context binds the two labels and the package list |
| UpsExample.UpsShipmentSummary | examples/ups_shipment_example.py:186-201 | with such party dicts the rendered request reads back as its labels and its packages |
| UpsExample.DefaultsKeepLabels | examples/ups_shipment_example.py:69-132 | the five default party dicts bind none of `customer_context`, `shipment_description` and `packages` |
| UpsExample.DefaultCountries | examples/ups_shipment_example.py:69-116 | with the default party dicts all three country codes are `NL` |
| UpsExample.CountryHoles | examples/ups_shipment_example.py:31-55 | the three parties' country codes are the `{..._country_code}` leaves |
| UpsExample.DutchParties | tests/test_ups_shipments.py:364-368 | rendered with the default party dicts, shipper, recipient and ship-from are all in `NL` |
| UpsExample.ShipmentSummaries | examples/ups_shipment_example.py:247-271 | when the party dicts keep the labels, request `k` of the loop reads back as planned shipment `k` |
| UpsExample.CreateMultipleShipments | examples/ups_shipment_example.py:204-271 | `None` party arguments take their defaults; fails exactly for a zero shipment size; otherwise one rendered request per planned shipment, each reading back as that shipment |
| UpsExample.RenderShipments | examples/ups_shipment_example.py:247-271 | the loop yields one request per planned shipment, each the render of that shipment's context |
| UpsTests.TestShipmentSucceeds | tests/test_ups_shipments.py:190-205 | the test workflow's render succeeds whenever the injected packages hold no query |
| UpsTests.TestPackagesRendered | tests/test_ups_shipments.py:173-176 | the rendered `Package` entry is the render of the injected package list |
| UpsTests.TestLabelBindings | tests/test_ups_shipments.py:178-186 | when no party dict rebinds them, the test context binds the two labels |
| UpsTests.TestShipmentSummary | tests/test_ups_shipments.py:190-205 | with placeholder-free packages the rendered request reads back as its labels and exactly the packages passed in |
| UpsTests.TestShipmentDutch | tests/test_ups_shipments.py:364-368 | with the default party dicts the rendered request's parties are all in `NL` |
| UpsTests.SingleShipmentCase | tests/test_ups_shipments.py:278-303 | a single shipment of `n` generated packages renders and reads back as its labels and those packages |
| UpsTests.DefaultsKeepTestLabels | tests/test_ups_shipments.py:69-132 | the default party dicts bind neither label key |
| UpsTests.PlannedPackageUnits | tests/test_ups_shipments.py:355-358 | every package of every planned shipment is in `CM` and `KG` |
| UpsTests.TestShipmentSummaries | tests/test_ups_shipments.py:251-273 | request `k` of the test loop reads back as planned shipment `k` |
| UpsTests.TestSummaryAt | tests/test_ups_shipments.py:262-271 | one request of the test loop reads back as its planned shipment |
| UpsTests.TestShipmentsDutch | tests/test_ups_shipments.py:364-368 | with the default party dicts every request of the test loop has its parties in `NL` |
| UpsTests.TestMultipleShipments | tests/test_ups_shipments.py:208-275 | fails exactly for a zero shipment size; otherwise one request per planned shipment; with all defaults each reads back as its shipment and has Dutch parties |
| UpsTests.TestRenderShipments | tests/test_ups_shipments.py:251-275 | the test loop yields one request per planned shipment, each the render of the injected template |

## Left out

- PDF rendering, the Jinja2 back end, the command-line interface and the example `main` functions
  (JSON printing, file writing) are I/O or third-party engines and are not part of this model.
- JMESPath is a foreign query language. Queries go through the evaluator parameter `eval`, so query results are whatever `eval` returns.
- Floats are kept as opaque strings. The dimensions and weight strings `"2.5"`, `"30.0"`, `"20.0"` and `"15.0"` stand in for `str(float)`. The tests' `float(...) > 0` checks are not modelled.
- `is_placeholder`'s `isinstance(value, str)` guard is vacuous for a `string` argument.
- Python's whitespace set for `str.strip()` is fixed to the six ASCII whitespace characters.
- Python's string `repr` also escapes non-printable characters above U+00FF (as `\uXXXX` or `\UXXXXXXXX`). Deciding which ones are
  non-printable needs the Unicode character database, so the model writes those characters unescaped.
- Values.Merge: a Python `{**a, **b}` holds a repeated key once, at its position in `a`, with `b`'s value. The model keeps
  both entries and lets lookup take the last one. Every lookup agrees with Python, but the `str` of a merged dict with a
  repeated key lists that key twice, where Python lists it once.
- The test workflow's `UPS_SHIPMENT_TEMPLATE.copy()` is shallow, so assigning `Package` also mutates the shared
  module-level template. The model treats templates as immutable values and injects the packages into a fresh one.
- The custom-dimension case of `create_package_data` is modelled only in general form (`UpsTemplify.PackageRenders` takes
  any `Dimensions`). The concrete 40.0/30.0/20.0/5.0 test values are not spelled out.
- UpsExample.CreateMultipleShipments: read-back as the planned shipment is proved only when the party dicts do not
  rebind `customer_context`, `shipment_description` or `packages`. The defaults satisfy this; a caller's dict that rebinds
  one of them would change the request, and the model does not say how.
- UpsTests.TestMultipleShipments: same restriction as above, for the two label keys.
- UpsTests.TestShipmentSucceeds: success is proved for injected packages without query placeholders. The generated
  packages have none; arbitrary package dicts containing `{{ x | jmespath(...) }}` text could fail to render.
- UpsTests.SingleShipmentCase: the test's five packages and exact package IDs follow from `Packages.PackagesNumbered`
  and are not repeated in this lemma.
- UpsExample.RenderShipments, UpsTests.TestRenderShipments: the loops are split out of the two multiple-shipment
  methods and require a nonzero size, which their callers check first.
- Batching.ThirtyAtTwenty, Shipments.ThirtyAtTwentyShipments: the concrete test values are checked on the batching
  plan. The full rendered payloads of the 30-package tests are covered by the general read-back lemmas instead.
