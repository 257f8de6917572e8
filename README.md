# Visual-regression harness — a Dafny model

The harness is a Playwright spec file, `tests/visual.spec.ts`, with two configuration files.
`tests/visual-test-config.js` lists the viewports, the browsers and the capture options.
`tests/playwright.config.js` turns the enabled browsers into Playwright projects.

When the spec file is loaded, it registers these tests with the runner:
- a suite-level `beforeAll` hook and one suite check;
- per viewport, a describe block holding a `beforeEach` hook that sets the viewport size and a "Component list loaded" check;
- per viewport, a nested describe holding one capture test per entry of the list the registration loop sees, which is the initial `[]` (see "## Findings").

When the tests run, the `beforeAll` hook fetches the component manifest. It checks the manifest's shape, assigns the module-level list `components`, and warns about incomplete entries. Each capture test then:
1. navigates to the component's path;
2. waits for the component's selector to be visible;
3. waits the stabilization time, if it is non-zero;
4. compares a screenshot of the element against a baseline named `<component>-<viewport>.png`.

The model has one Dafny module per concern:

- `Wrappers`: the `Option` type.
- `Json`: a decoded JSON value as JavaScript code sees it.
  - `Undefined` stands for an absent property.
  - `Truthy` is JavaScript truthiness; reading a property of a `Nullish` value throws.
- `Text`: how a template literal renders an integer n with |n| < 10^21 (larger numbers are printed in exponent notation, which is not modelled).
  - `NatText` and `IntText` do the rendering.
  - The lemmas prove that the rendering reads back to the same number (`DigitsValue`) and is injective.
- `VisualTestConfig`: the configuration datatypes and the shipped constant `Shipped`.
- `PlaywrightConfig`: the `projects` filter/map, including the `Desktop <Name>` device key.
- `ComponentCase`:
  - the selector expression and the screenshot name;
  - a capture test's body as a trace of abstract page actions, `CaseActions`;
  - class `Page`, which records those actions;
  - methods that run the hook and the test body statement by statement.
- `Manifest`: the `beforeAll` decision as a function of the response, `LoadManifest`.
  - The `forEach` warning loop exists twice: as a recursive specification (`ScanFrom`) and as a method with a loop (`CheckEntries`).
- `Registration`: everything loading the file registers (`Registrations`), for a component list given as a parameter.
  - Describe blocks carry the id of the runner's describe object; hooks apply to the tests whose scope they enclose.
  - Class `Registry` performs the registration imperatively, with the source's nested loops, and is proved to produce `Registrations`.
  - `RunActions` is what the page sees when a registered test runs.
- `VisualSpec`: the spec file as a whole.
  - Class `SpecFile` holds the module variable `components`. Its constructor `Load` registers the tests; its method `BeforeAll` runs the hook.
  - `RunMatrix` lists the runs of an invocation: every test, once per project.

Two conventions hold throughout:
- **Positions in the test list** are written with `Times(i, k)`, which is `i * k` by repeated addition. `Registration.TimesIsProduct` proves `Times(i, k) == i * k`.
- **Describe titles** are kept as the template and its arguments (`ViewportTitle(vp)` or `PlainTitle(text)`). `TitleText` renders a title.

The code warns about manifest entries that lack `name` or `path` and keeps them; the model does the same: `Manifest.LoadSucceeds` states that the list is `blocks.data` unchanged.

## Model

| member | source | states |
|---|---|---|
| Json.Truthy | tests/visual.spec.ts:20 | JavaScript truthiness as `!x` tests it: `null` and `undefined` are falsy, every array and every object (even an empty one) is truthy |
| Json.Get | tests/visual.spec.ts:29 | a property read that is not `undefined` names an own field of an object and returns that field's value |
| VisualTestConfig.ShippedViewports | tests/visual-test-config.js:3-8 | exactly mobile 375x667, tablet 768x1024, desktop 1280x720 and widescreen 1920x1080, in that order; names are non-empty and pairwise distinct; sizes are positive |
| VisualTestConfig.ShippedBrowsers | tests/visual-test-config.js:11-15 | chromium and firefox enabled, webkit disabled, in that order; browser names are non-empty and distinct |
| VisualTestConfig.ShippedOptions | tests/visual-test-config.js:18-29 | stabilizationTime is 500, so it is non-zero; customSelectors is present and empty |
| PlaywrightConfig.Upper | tests/playwright.config.js:22 | `toUpperCase` on one character: a lower-case ASCII letter maps to its upper-case letter (code point minus 32); every other character is unchanged |
| PlaywrightConfig.Capitalize | tests/playwright.config.js:22 | `charAt(0).toUpperCase() + slice(1)`: the length is kept, the first character is upper-cased and every later character is unchanged |
| PlaywrightConfig.DeviceKey | tests/playwright.config.js:22 | the device key is "Desktop " followed by the capitalised name, 8 characters longer than the name |
| PlaywrightConfig.ProjectOf | tests/playwright.config.js:20-23 | a project keeps its browser's name, and its device key is 8 characters longer than that name |
| PlaywrightConfig.Projects | tests/playwright.config.js:18-23 | the filter/map gives no more projects than browsers, and each project's device key is the key of its own name |
| PlaywrightConfig.EnabledIndices | tests/playwright.config.js:19 | the positions of the enabled browsers: each is enabled, every enabled position is listed, and they are strictly increasing |
| PlaywrightConfig.ProjectsFollowEnabledBrowsers | tests/playwright.config.js:18-23 | there is one project per enabled browser, and the k-th project is built from the k-th enabled browser, so configuration order is kept |
| PlaywrightConfig.ProjectCount | tests/playwright.config.js:18-23 | the number of projects equals the number of browsers with `enabled` set |
| PlaywrightConfig.ProjectsAreEnabled | tests/playwright.config.js:18-22 | every project comes from an enabled browser; it carries that browser's name and that name's device key |
| PlaywrightConfig.DisabledBrowserHasNoProject | tests/playwright.config.js:18-19 | when browser names are distinct, no project bears the name of a disabled browser |
| PlaywrightConfig.EnabledBrowserHasProject | tests/playwright.config.js:18-21 | every enabled browser has a project |
| PlaywrightConfig.DeviceKeyShape | tests/playwright.config.js:22 | the device key is "Desktop ", then the upper-cased first character, then the rest of the name; it is 8 characters longer than the name |
| PlaywrightConfig.CapitalizeInjective | tests/playwright.config.js:22 | for names that do not start with an upper-case letter, capitalising loses nothing |
| PlaywrightConfig.DeviceKeyInjective | tests/playwright.config.js:22 | for such names, different browsers get different device keys |
| PlaywrightConfig.ShippedProjects | tests/playwright.config.js:18-22 | with the shipped browsers the projects are exactly chromium/"Desktop Chromium" then firefox/"Desktop Firefox" |
| ComponentCase.Selector | tests/visual.spec.ts:84 | an override that is present and non-empty is used; otherwise (no `customSelectors`, no key, or an empty string) the selector is "." + name; the selector is never empty |
| ComponentCase.EmptyOverrideFallsBack | tests/visual.spec.ts:84 | an override that is the empty string falls back to "." + name, because JavaScript's logical or treats the empty string as false |
| ComponentCase.ShippedSelectorsAreDefault | tests/visual.spec.ts:84 | with the shipped options every component resolves to "." + name |
| ComponentCase.ScreenshotName | tests/visual.spec.ts:96 | the baseline name starts with the component name and a hyphen, and is 5 characters longer than the two names together |
| ComponentCase.ScreenshotNamesCanCollide | tests/visual.spec.ts:95-97 | hyphens let two different cases share a baseline name ("a-b" at "c" and "a" at "b-c") |
| ComponentCase.ScreenshotNamesDistinct | tests/visual.spec.ts:95-97 | when viewport names are non-empty and hyphen-free, a baseline name determines the component name and the viewport name |
| ComponentCase.ShippedScreenshotNamesDistinct | tests/visual.spec.ts:95-97 | with the shipped viewports, no two cases compare against the same baseline |
| ComponentCase.CaseActions | tests/visual.spec.ts:81-97 | a case performs 3 or 4 page steps: it first navigates to the component's path, and its last step is a screenshot named with the line-96 baseline name |
| ComponentCase.CaseActionOrder | tests/visual.spec.ts:81-97 | the trace is goto(path), waitVisible(selector), then wait(stabilizationTime) exactly when it is non-zero, and last a screenshot of the awaited selector named `<component>-<viewport>.png`; no other wait occurs |
| ComponentCase.ShippedCaseActions | tests/visual.spec.ts:81-97 | with the shipped options every case is goto, waitVisible(".name"), wait(500), screenshot |
| ComponentCase.Page.constructor | tests/visual.spec.ts:77 | a fresh page has seen no action |
| ComponentCase.Page.SetViewport | tests/visual.spec.ts:52-55 | appends exactly one viewport-size action |
| ComponentCase.Page.Goto | tests/visual.spec.ts:81 | appends exactly one navigation |
| ComponentCase.Page.WaitForSelector | tests/visual.spec.ts:87 | appends exactly one visibility wait |
| ComponentCase.Page.WaitForTimeout | tests/visual.spec.ts:91 | appends exactly one timed wait |
| ComponentCase.Page.ToHaveScreenshot | tests/visual.spec.ts:95-97 | appends exactly one screenshot comparison |
| ComponentCase.RunBeforeEach | tests/visual.spec.ts:51-56 | the viewport hook adds exactly the size of its viewport to the page's trace |
| ComponentCase.RunComponentTest | tests/visual.spec.ts:77-98 | running the test body statement by statement appends exactly `CaseActions` |
| Text.NatText | tests/visual.spec.ts:49 | a numeral has at least one character |
| Text.IntText | tests/visual.spec.ts:49 | the rendering of an integer has at least one character |
| Text.NatTextDigits | tests/visual.spec.ts:49 | a numeral is all decimal digits, with no leading zero |
| Text.IntTextSign | tests/visual.spec.ts:14 | a rendering starts with "-" exactly when the number is negative |
| Text.IntTextDigits | tests/visual.spec.ts:14 | after the optional sign, a rendering is all digits |
| Text.NatTextOfThree | tests/visual.spec.ts:49 | a three-digit number renders as its three digits |
| Text.NatTextOfFour | tests/visual.spec.ts:49 | a four-digit number renders as its four digits |
| Text.NatTextRoundTrip | tests/visual.spec.ts:49 | reading the numeral back gives the number |
| Text.NatTextInjective | tests/visual.spec.ts:49 | different numbers render differently |
| Text.IntTextInjective | tests/visual.spec.ts:14 | different integers render differently, signs included |
| Manifest.Message | tests/visual.spec.ts:14 | the fetch error's message starts with "Failed to fetch components: " and ends with the status text |
| Manifest.Incomplete | tests/visual.spec.ts:29 | an entry that is not an object (a number, a string, an array, a boolean) always counts as incomplete, because both of its properties read as `undefined` |
| Manifest.ScanFrom | tests/visual.spec.ts:28-32 | the loop from index i warns at most once per remaining entry, and only with indices of entries from i on |
| Manifest.ScanThrows | tests/visual.spec.ts:28-32 | the warning loop throws (from `component.name`) exactly when some entry is null or undefined |
| Manifest.ScanWarnings | tests/visual.spec.ts:28-32 | the loop warns about exactly those incomplete entries (falsy `name` or `path`) that it reaches before a throw |
| Manifest.ScanInOrder | tests/visual.spec.ts:28-32 | warnings come in strictly increasing index order, so at most one per index |
| Manifest.CheckEntries | tests/visual.spec.ts:28-32 | the imperative `forEach` produces the same warnings and the same throw as the loop's specification |
| Manifest.LoadManifest | tests/visual.spec.ts:8-40 | any error leaves the list empty; success needs an ok response whose body decodes and is well-shaped; on success every warning names an entry of the list |
| Manifest.NonOkResponseFails | tests/visual.spec.ts:13-15 | a non-ok response gives the fetch error and an empty list; the message contains the status and the status text |
| Manifest.MalformedBodyFails | tests/visual.spec.ts:20-22 | a falsy `blocks`, or a `blocks.data` that is not an array, gives "Invalid response format: missing blocks.data array" and an empty list |
| Manifest.ErrorLeavesNoComponents | tests/visual.spec.ts:33-38 | whatever the hook throws, the catch block leaves `components` empty |
| Manifest.LoadSucceeds | tests/visual.spec.ts:17-32 | the hook succeeds exactly on an ok, well-shaped response with no null entry; then the list is `blocks.data` unchanged, and the warnings are exactly the incomplete indices, in increasing order |
| Manifest.EmptyManifestIsNoError | tests/visual.spec.ts:20-24 | `{blocks: {data: []}}` is accepted and yields an empty list without error |
| Registration.TitleText | tests/visual.spec.ts:49 | a viewport title starts with "Viewport: " followed by the viewport's name, and is at least 16 characters longer than the name |
| Registration.ComponentTitle | tests/visual.spec.ts:77 | a capture test's title is "Component: " followed by the component name |
| Registration.ComponentTests | tests/visual.spec.ts:102-104 | the loop registers exactly one entry per component; each one is a test in the nested describe's scope |
| Registration.ViewportBlock | tests/visual.spec.ts:49-105 | one viewport's describe registers 2 + #components entries: first its `beforeEach`, scoped to that describe, and after it only tests |
| Registration.ViewportBlocks | tests/visual.spec.ts:48-107 | the viewport loop registers #viewports * (2 + #components) entries, and every hook among them is a `beforeEach` |
| Registration.Registrations | tests/visual.spec.ts:8-107 | the file registers 2 + #viewports * (2 + #components) entries; the first is the suite-level `beforeAll`, and every later hook is a `beforeEach` |
| Registration.ViewportTitleAt | tests/visual.spec.ts:49 | the character after "Viewport: " is the first character of the viewport's name |
| Registration.ViewportTitlesDiffer | tests/visual.spec.ts:49 | viewports whose names start differently get different describe titles |
| Registration.ComponentTestsSpec | tests/visual.spec.ts:102-104 | the component loop registers one test per component, in list order, and nothing else |
| Registration.BlockTestsSpec | tests/visual.spec.ts:49-65 | a viewport block's tests are its list check followed by its component tests: 1 + #components tests |
| Registration.BlocksTestCount | tests/visual.spec.ts:48-107 | the viewport loop registers #viewports blocks of 1 + #components tests |
| Registration.BlocksTestsAt | tests/visual.spec.ts:48-107 | within the viewport loop's tests, the i-th run of 1 + #components tests is exactly viewport i's block |
| Registration.PreambleTests | tests/visual.spec.ts:43-45 | of the suite-level registrations, only "Should have components to test" is a test |
| Registration.PreambleHooks | tests/visual.spec.ts:8 | the suite-level hook is a `beforeAll`; it sets no viewport |
| Registration.RegistrationsTests | tests/visual.spec.ts:43-45 | the suite check comes first, then the tests of the viewport blocks |
| Registration.TestCount | tests/visual.spec.ts:43-107 | per project, 1 + #viewports * (1 + #components) tests are registered, the suite check first |
| Registration.BlockInRegistrations | tests/visual.spec.ts:48-107 | viewport i's tests sit right after the suite check and the blocks of the viewports before it, in configuration order |
| Registration.TestLayout | tests/visual.spec.ts:65-104 | test 1 + i(1 + #cs) + 1 + j is `Component: <cs[j].name>`, inside viewport i's nested describe, capturing component j at viewport i |
| Registration.ListLayout | tests/visual.spec.ts:59-62 | test 1 + i(1 + #cs) is viewport i's "Component list loaded" check, inside that viewport's describe |
| Registration.EmptyListRegistersNoCaptures | tests/visual.spec.ts:102-104 | with the empty list, the suite check is followed by one list check per viewport, in order, and no capture test at all |
| Registration.EmptyListCount | tests/visual.spec.ts:102-104 | with the empty list, 1 + #viewports tests are registered |
| Registration.EmptyListCheckAt | tests/visual.spec.ts:59-62 | with the empty list, test k is the list check of viewport k - 1 |
| Registration.NoHooksAmongTests | tests/visual.spec.ts:76-104 | the component loop registers no hook |
| Registration.BeforeEachFor | tests/visual.spec.ts:51-56 | at most one hook action per registration applies to a test, and registrations that are all tests contribute none |
| Registration.BlockHooks | tests/visual.spec.ts:49-56 | a viewport block's `beforeEach` applies to a test exactly when the test is inside that block's describe object |
| Registration.PrefixOfOne | tests/visual.spec.ts:49 | a one-describe scope encloses a test exactly when that describe is the test's outermost |
| Registration.BlocksHooks | tests/visual.spec.ts:48-56 | among all viewport blocks, only the hook of the block enclosing the test applies |
| Registration.ViewportHookScoped | tests/visual.spec.ts:49-56 | every test inside viewport i's describe runs exactly one `beforeEach`, the one that sets viewport i's size |
| Registration.InnerInOuter | tests/visual.spec.ts:65 | the nested describe lies inside its viewport's describe |
| Registration.ViewportHookActions | tests/visual.spec.ts:52-55 | the viewport hook's page effect is a single setViewportSize |
| Registration.RunActions | tests/visual.spec.ts:51-98 | a capture test's run has at least three page steps, and its last step is the screenshot of its own selector under its own baseline name |
| Registration.CaptureRun | tests/visual.spec.ts:51-98 | running the capture of component j at viewport i sets viewport i's size, then performs exactly that case's steps |
| Registration.TimesIsProduct | tests/visual.spec.ts:48-104 | position arithmetic: `Times(i, k)` is `i * k` |
| Registration.Registry.constructor | tests/visual.spec.ts:1 | the runner starts with nothing registered and no describe opened |
| Registration.Registry.Describe | tests/visual.spec.ts:49 | opens a new describe object (id = number of describes opened so far) inside the parent scope; registers nothing |
| Registration.Registry.AddHook | tests/visual.spec.ts:51 | appends exactly one hook |
| Registration.Registry.AddTest | tests/visual.spec.ts:59 | appends exactly one test |
| Registration.Registry.CreateComponentTest | tests/visual.spec.ts:76-77 | appends the `Component: <name>` capture test |
| Registration.Registry.RegisterComponents | tests/visual.spec.ts:102-104 | the loop appends exactly the component tests of the list, in order |
| Registration.Registry.RegisterViewport | tests/visual.spec.ts:49-105 | one viewport's describe appends exactly that viewport's block and opens two describes |
| Registration.Registry.RegisterViewports | tests/visual.spec.ts:48-107 | the viewport loop appends exactly the blocks of all viewports, in order |
| Registration.Registry.RegisterSpec | tests/visual.spec.ts:8-107 | the top-level code appends exactly `Registrations` for the list the loop sees |
| VisualSpec.SpecFile.Load | tests/visual.spec.ts:5-107 | loading the file leaves `components` at [] and registers the tests for the empty list, which that value gives |
| VisualSpec.SpecFile.BeforeAll | tests/visual.spec.ts:8-40 | the hook, branch by branch, leaves `components`, the warnings and the thrown error as `LoadManifest` says |
| VisualSpec.ListCheckPasses | tests/visual.spec.ts:59-62 | the body of both list checks (here and at line 44): `components.length > 0` |
| VisualSpec.ListChecksAfterLoad | tests/visual.spec.ts:43-62 | after a failed hook the list checks fail; after a successful one they pass exactly when `blocks.data` is non-empty |
| VisualSpec.RunMatrix | tests/playwright.config.js:18-23 | every run pairs a project of the invocation with one of its registered tests |
| VisualSpec.RunMatrixTimes | tests/playwright.config.js:18-23 | an invocation has Times(#projects, #tests) runs |
| VisualSpec.RunCount | tests/playwright.config.js:18-23 | an invocation runs #projects * #tests tests |
| VisualSpec.RunsCover | tests/playwright.config.js:18-23 | a (project, test) pair is run exactly when the project and the test both belong to the invocation |
| VisualSpec.ShippedRunCount | tests/visual.spec.ts:43-107 | with the shipped configuration, a list of n components means 10 + 8n runs |
| VisualSpec.ShippedLoadRegistersNoCaptures | tests/visual.spec.ts:102-104 | the shipped file, as loaded, registers 5 tests and no capture, so an invocation makes 10 runs |
| VisualSpec.MobileNumerals | tests/visual-test-config.js:4 | the title template renders 375 and 667 as "375" and "667" |
| VisualSpec.TabletNumerals | tests/visual-test-config.js:5 | the template renders 768 and 1024 as "768" and "1024" |
| VisualSpec.DesktopNumerals | tests/visual-test-config.js:6 | the template renders 1280 and 720 as "1280" and "720" |
| VisualSpec.WidescreenNumerals | tests/visual-test-config.js:7 | the template renders 1920 and 1080 as "1920" and "1080" |
| VisualSpec.TitleOf | tests/visual.spec.ts:49 | once its numerals are known, a viewport title is "Viewport: ", the name, " (", the width, "x", the height and ")" |
| VisualSpec.MobileTitle | tests/visual.spec.ts:49 | the first shipped describe is titled "Viewport: mobile (375x667)" |
| VisualSpec.TabletTitle | tests/visual.spec.ts:49 | the second is titled "Viewport: tablet (768x1024)" |
| VisualSpec.DesktopTitle | tests/visual.spec.ts:49 | the third is titled "Viewport: desktop (1280x720)" |
| VisualSpec.WidescreenTitle | tests/visual.spec.ts:49 | the fourth is titled "Viewport: widescreen (1920x1080)" |
| VisualSpec.ShippedViewportTitlesDistinct | tests/visual.spec.ts:49 | the four shipped viewport describes have four different titles |

## Left out

- Console output (`console.log`, `console.warn`, `console.error`) is not modelled. The warning loop keeps only the list of warned indices.
- The nested `beforeAll` at tests/visual.spec.ts:68-71 is not modelled, because it only logs.
- The HTTP request and `response.json()` are not modelled. The response arrives already decoded: `body` is None when decoding rejects, and `ok` is taken as given rather than derived from the status.
- JSON numbers are integers. Floating point, and `NaN` as a falsy value, are not modelled.
- Property reads see only an object's own fields. Prototype-chain keys (in the body or in `customSelectors`) are not modelled.
- The text of the TypeError raised by reading a property of null or undefined is not modelled. The model records only which property was read.
- PlaywrightConfig.Upper: upper-cases ASCII letters only. Unicode `toUpperCase` is not modelled.
- The Playwright runtime is reduced to abstract page actions: no timing, pixel comparison or baseline storage. This covers `setViewportSize`, `goto`, `waitForSelector`, `waitForTimeout` and `toHaveScreenshot`. Each page call is taken to return; a call that throws (a `goto` navigation error, a `waitForSelector` timeout) ends the test after a prefix of `CaseActions`, with no screenshot, and `RunComponentTest` and `CaptureRun` do not cover that case.
- Concurrency and worker scheduling are not modelled. A run matrix lists runs project by project, without an execution order.
- `parallelizeComponents` is carried in the options but not used, because no modelled code reads it.
- Runner settings are not modelled: `testDir`, `timeout`, `fullyParallel`, `reporter`, `use`, the commented-out `webServer`, and the contents of Playwright's `devices` table.
- Registration takes components at their declared type `{name: string, path: string}`. A manifest entry of another shape (a missing `name`, say) is not carried into a registered test. This is moot as written, because the loop only ever sees the initial `[]`.
- Per-project snapshot path suffixes that Playwright adds to baseline names are not modelled.

## Findings

| source | as written | input that shows it | evidently intended | confidence | as-written member | corrected member |
|---|---|---|---|---|---|---|
| tests/visual.spec.ts:102-104 | The capture tests are registered by a loop over `components` while the file loads, when `components` still holds the `[]` of line 5. It is assigned only later, in the `beforeAll` at line 24. | Any manifest, e.g. `{blocks: {data: [{name: "cards", path: "/cards"}]}}`: the shipped file still registers 5 tests per project and no capture. | One `Component: <name>` test per manifest entry and viewport, as the comments at lines 66-67 and 73-75 say. | not executed | VisualSpec.ShippedLoadRegistersNoCaptures | Registration.TestLayout |

The as-written half is in two places. `VisualSpec.SpecFile.Load` registers `Registrations(0, viewports, [])` whatever the manifest later holds. `Registration.EmptyListRegistersNoCaptures` proves that this registers no capture test.

The corrected half is the registration functions, which take the component list as a parameter:
- `Registration.TestLayout` places one capture per component and viewport;
- `Registration.TestCount` counts 1 + |viewports| * (1 + |components|) tests;
- `Registration.CaptureRun` shows that each capture performs its case's steps at its viewport's size.
