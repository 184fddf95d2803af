# CPF/CNPJ generator and OS-dependent driver paths

A Dafny model of the two pieces of the WebAutomation helper library that hold
logic of their own:

- **`DataGenerator`** builds random Brazilian CPF (11 digits) and CNPJ
  (14 digits) numbers. A random base gets two modulo-11 check digits appended
  in place, and the `...comFinal` variants retry until the last digit is the
  one asked for. Then they render the digits as a string. The model has
  `DigitList`, a class standing for the `ArrayList<Integer>` that the check-digit
  methods extend in place. `GerarDigito` and `GeradorDigitoCnpj` are loops proved
  against the weighted-sum specification in `CheckDigits`. The results are also
  proved valid under the Receita Federal rule, which is stated separately with
  literal weight tables (10..2 and 11..2 for CPF; 5432 98765432 and
  6 5432 98765432 for CNPJ) and the "ten times the sum, mod 11, mod 10"
  formula. The converse is proved too: a valid number is exactly the one the
  generator builds on its base digits. `cpfSize()` is the constant `CpfSize`.
- **`Utils`** holds the process-wide `Properties`, loaded lazily from
  `setup.properties`, and derives paths from it. `binOSPath` replaces
  `OS_SYSTEM` in `browser.path.root` with `linux` or `windows`. Off Linux it
  also sets `browser.mode.extension` to `.exe` as a side effect.
  `binDownloadFolderPath` appends `downloads`. `binDriverPath` appends the
  driver name and extension. The static state is one `PropertyStore` object.
  Its methods are proved against pure functions of the loaded map
  (`OsPath`, `AfterOsPath`, `DownloadFolderPath`, `DriverPath`), and the lemmas
  are stated about those functions.

Inputs that the Java code takes from the environment are parameters here:

- the digits `Random.nextInt(9)` draws (`draws`, each in 0..8);
- the successive draws of a retry loop (`attempts`);
- the contents of `setup.properties` (`setupFile`, `None` when it cannot be read);
- the operating-system name (`osName`).

Modules: `Wrappers` (Option/Result), `JavaStrings` (`toLowerCase`,
`contains`, `replace`, `Integer.toString`), `CheckDigits`, `DataGenerator`,
`Utils`.

Facts about the code that the model keeps:

- `gerarDigito` and `geradorDigitoCNPJ` append to the list passed in; they
  return nothing.
- OS_SYSTEM is substituted only by `binOSPath`, `binDownloadFolderPath` and
  `binDriverPath`. `getProp` does not substitute it: it returns the current
  set's value, which equals the loaded value for every key except
  `browser.mode.extension`, which `binOSPath` sets to `.exe` off Linux.
- `gerarCNPJ` produces 14 digits, although its doc comment
  (DataGenerator.java:125-126) says 15.

## Model

| member | source | states |
|---|---|---|
| `CheckDigits.JavaRem` | src/main/java/automation/data/DataGenerator.java:86 | Java's remainder lies strictly between -11 and 11, agrees with the mathematical remainder on non-negative sums, and is never positive on negative ones |
| `CheckDigits.CheckDigit` | src/main/java/automation/data/DataGenerator.java:86-91 | the appended digit is always in 0..9; it is 0 exactly when the remainder is below 2; otherwise adding it to a non-negative sum makes the sum a multiple of 11 |
| `CheckDigits.CheckDigitIsExpected` | src/main/java/automation/data/DataGenerator.java:170-175 | for every non-negative sum, the code's branching rule gives the digit the validator formula (sum·10 mod 11 mod 10) expects |
| `CheckDigits.CpfWeightsAreStandard` | src/main/java/automation/data/DataGenerator.java:78-84 | the weights n+1 down to 2 are 10..2 over nine digits and 11..2 over ten |
| `CheckDigits.CnpjWeightsAreStandard` | src/main/java/automation/data/DataGenerator.java:154-168 | the counting weights with the reset to 9 at eight remaining positions are 5,4,3,2,9,…,2 over twelve digits and 6,5,4,3,2,9,…,2 over thirteen |
| `DataGenerator.GerarDigito` | src/main/java/automation/data/DataGenerator.java:77-93 | the list grows by exactly one element, every existing element is unchanged, and the new one is the mod-11 digit of the sum weighted n+1 down to 2 |
| `DataGenerator.GerarCpf` | src/main/java/automation/data/DataGenerator.java:58-69 | 11 digits; the first nine are the draws (0..8); the 10th and 11th are the check digits of positions 1..9 and 1..10; the result is a valid CPF |
| `DataGenerator.GeradorDigitoCnpj` | src/main/java/automation/data/DataGenerator.java:153-176 | the list grows by exactly one element, every existing element is unchanged, and the new one is the mod-11 digit of the sum under the CNPJ weights |
| `DataGenerator.GerarCnpj` | src/main/java/automation/data/DataGenerator.java:128-145 | 14 digits: the eight draws, then 0,0,0,1, then the check digits of the 12- and 13-digit prefixes; the result is a valid CNPJ |
| `DataGenerator.RenderList` | src/main/java/automation/data/DataGenerator.java:45-47 | the string is the digits' decimal renderings in order; for decimal digits it has one character per digit, each the digit's character |
| `DataGenerator.GerarCpfComFinal` | src/main/java/automation/data/DataGenerator.java:36-50 | a string comes back exactly when some attempt ends in the requested digit; it is the rendering of the first such CPF; it has 11 characters and ends in that digit; it renders a valid CPF; it never comes back for a digit outside 0..9 |
| `DataGenerator.GerarCnpjComFinal` | src/main/java/automation/data/DataGenerator.java:106-120 | the same for CNPJ: the first attempt ending in the digit, 14 characters ending in it, a valid CNPJ, and never for a digit outside 0..9 |
| `DataGenerator.CpfFromBaseIsValid` | src/main/java/automation/data/DataGenerator.java:58-69 | a CPF built on any nine decimal digits passes the Receita Federal check |
| `DataGenerator.ValidCpfIsGenerated` | src/main/java/automation/data/DataGenerator.java:77-93 | every valid CPF is the one built on its first nine digits (the check digits are determined) |
| `DataGenerator.CnpjFromBaseIsValid` | src/main/java/automation/data/DataGenerator.java:128-145 | a CNPJ built on any twelve decimal digits passes the Receita Federal check |
| `DataGenerator.ValidCnpjIsGenerated` | src/main/java/automation/data/DataGenerator.java:153-176 | every valid CNPJ is the one built on its first twelve digits |
| `DataGenerator.RenderDigits` | src/main/java/automation/data/DataGenerator.java:115-117 | rendering decimal digits yields one character per digit, the i-th being the i-th digit's character |
| `DataGenerator.CpfFinalDigitReachable` | src/main/java/automation/data/DataGenerator.java:33-43 | every requested digit 0..9 ends some CPF built on draws in 0..8, so the retry loop can stop for each digit it documents |
| `DataGenerator.CnpjFinalDigitReachable` | src/main/java/automation/data/DataGenerator.java:102-113 | every requested digit 0..9 ends some CNPJ built on draws in 0..8 and the fixed 0001 |
| `DataGenerator.LastDigitIsDecimal` | src/main/java/automation/data/DataGenerator.java:41-43 | every generated CPF and CNPJ ends in 0..9, so the retry loops can stop only for such a digit |
| `JavaStrings.IntToString` | src/main/java/automation/data/DataGenerator.java:46 | a number renders as one character exactly when it is in 0..9, and then as that digit's character |
| `JavaStrings.ToLower` | src/main/java/automation/core/utils/Utils.java:85 | same length; each ASCII upper-case letter becomes its lower-case letter (code plus 32), every other character is kept, and no upper-case ASCII letter is left |
| `JavaStrings.Contains` | src/main/java/automation/core/utils/Utils.java:85 | a string contains the empty string, and a contained string is no longer than the string containing it |
| `JavaStrings.ReplaceAllAbsent` | src/main/java/automation/core/utils/Utils.java:91 | replacing a target that does not occur returns the string unchanged |
| `JavaStrings.ReplaceAllRemovesTarget` | src/main/java/automation/core/utils/Utils.java:91 | when the replacement shares no character with the target, the result contains no occurrence of the target |
| `Utils.GetProperty` | src/main/java/automation/core/utils/Utils.java:47 | the lookup is null exactly when the key is absent, and otherwise the map's value |
| `Utils.OsFolder` | src/main/java/automation/core/utils/Utils.java:82-89 | the substituted folder is `linux` exactly when the lower-cased OS name contains "linux", and `windows` otherwise |
| `Utils.PropertyStore.constructor` | src/main/java/automation/core/utils/Utils.java:31 | the store starts with `props` null |
| `Utils.PropertyStore.LoadProps` | src/main/java/automation/core/utils/Utils.java:55-66 | the first call loads the file's contents (an empty set when it cannot be read); once loaded, later calls return the same set and do not reload |
| `Utils.PropertyStore.GetProp` | src/main/java/automation/core/utils/Utils.java:44-48 | returns exactly the loaded set's value for the key (null when absent) and leaves the set loaded and unchanged |
| `Utils.PropertyStore.BinOsPath` | src/main/java/automation/core/utils/Utils.java:78-92 | the result is the root with OS_SYSTEM replaced by the OS folder (failure when the root is absent); the new set is the old one with `.exe` as extension off Linux, unchanged on Linux |
| `Utils.PropertyStore.BinDownloadFolderPath` | src/main/java/automation/core/utils/Utils.java:100-112 | the result is the resolved root followed by `downloads`; the set is loaded and never modified |
| `Utils.PropertyStore.BinDriverPath` | src/main/java/automation/core/utils/Utils.java:121-124 | the result is root + driver name + extension read after `binOSPath`; the set changes as `binOSPath` changes it |
| `Utils.OsPathResolvesPlaceholder` | src/main/java/automation/core/utils/Utils.java:80-91 | the path exists exactly when the root key does; no OS_SYSTEM is left in it; a root without OS_SYSTEM comes back unchanged |
| `JavaStrings.ReplaceAllFirstOccurrence` | src/main/java/automation/core/utils/Utils.java:91 | when the target does not occur anywhere in `a + target + b` before position `|a|`, that first occurrence is replaced by the whole replacement at that place, the text `a` before it kept and the rest `b` replaced in turn |
| `Utils.OsPathSubstitutesFolder` | src/main/java/automation/core/utils/Utils.java:80-91 | a root `before + OS_SYSTEM + after` whose first OS_SYSTEM is the one after `before` (no occurrence starts inside `before`, which may still hold capitals and underscores) resolves to `before + folder +` the resolved `after`, and to `before + folder + after` when `after` has no placeholder |
| `Utils.OsPathExample` | src/main/java/automation/core/utils/Utils.java:80-91 | the root `./Web_Selenium/OS_SYSTEM/` resolves to `./Web_Selenium/linux/` on Linux and to `./Web_Selenium/windows/` elsewhere |
| `Utils.OsPathSideEffect` | src/main/java/automation/core/utils/Utils.java:85-89 | every key except `browser.mode.extension` keeps its value; that key becomes `.exe` off Linux and is unchanged on Linux |
| `Utils.OsPathIdempotent` | src/main/java/automation/core/utils/Utils.java:78-92 | a second `binOSPath` returns the same path and leaves the set as the first left it |
| `Utils.DownloadFolderExtendsOsPath` | src/main/java/automation/core/utils/Utils.java:100-111 | in the same state, the download folder exists exactly when the OS path does, and equals it followed by `downloads` |
| `Utils.DriverPathShape` | src/main/java/automation/core/utils/Utils.java:121-124 | the driver path exists exactly when the root key does; it starts with the resolved root; off Linux it is root + driver name + `.exe` |

## Left out

- Random number generation: the drawn digits are parameters, each in 0..8 as `nextInt(9)` returns them.
- GerarCpfComFinal: the Java loop draws forever. The model stops with `None` when the finite `attempts` run out, so its results are proved only for the case where a string comes back.
- GerarCnpjComFinal: the same finite-attempts bound as for the CPF loop.
- 32-bit overflow of the weighted sums is not modelled. The lists hold at most 13 decimal digits, so the sums stay far below 2^31.
- Reading `setup.properties` is not modelled as file I/O. Its contents are the `setupFile` parameter. A read that fails part-way through a load is not modelled: a failed read leaves the set empty.
- ToLower: only ASCII letters are lower-cased. Java's locale-dependent Unicode case mapping is not modelled.
- Reading `System.getProperty("os.name")`: the name is a parameter.
- `getDataBaseQueriesFromTextFile` (file I/O), `FindInStrRegEx` (java.util.regex), `getCurrentDateTime` and `getDate` (wall clock and date formatting) are not part of this model.
- Logging (`log.error`, `printStackTrace`) is not modelled.
- The page facade, driver factory, spreadsheet and ORM helpers only delegate to external libraries and are not part of this model.
