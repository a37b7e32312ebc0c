# Heart risk assessment: a verified model of the core

The application is a browser demo for estimating heart-attack risk from a retinal fundus photograph. The user signs up or logs in, then uploads a retinal image.

The upload page derives three images from the photograph, one per raster transform:

- a grayscale copy;
- a "vessel heatmap" that bands the inverted green channel into five flat colours;
- a simulated Grad-CAM attention map, which normalises the green channel by its maximum and colours it in four bands with a proportional alpha.

The upload page then assigns a risk level. If the file path names one, that level is used; otherwise a random one is chosen.

The results page shows the level on a five-step gauge. It also offers an image switcher and six recommendations per level, and can save a two-page PDF report. Accounts live in the browser's local storage, with password reset through a security question.

This project models that core in Dafny and proves what the code promises.

- **Raster transforms** (`ImageProcessing`, over `PixelBuffer` and `JsNumber`):
  - Each transform is a method that rewrites an `array<Byte>` of interleaved RGBA bytes in place, with stride-4 loops.
  - Each is proved equal to a per-pixel specification function (`MapPixels`).
  - ECMAScript number semantics are modelled where the code depends on them: `/`, `Math.max`, `Math.floor`, NaN, the infinities, and the ToUint8Clamp conversion of section 7.1.11 of ECMA-262 that a `Uint8ClampedArray` applies on every store. Finite numbers are exact rationals; IEEE-754 rounding is listed under "Left out".
- **Classifier and result assembly** (`Upload`, over `Strings` and `RiskGauge`): the ordered, case-insensitive keyword search on the file path, and the upload page's analyse handler. `Math.random` is passed in as a sequence of draws.
- **Gauge** (`RiskGauge`): the level table, the `indexOf` position, the percentage, the mask geometry and the "Risk Level k/5" label.
- **Results and report** (`Results`, over `JsPdf`):
  - the recommendation lookup with its fallback;
  - the image switcher;
  - the report as the exact sequence of jsPDF drawing calls, issued by methods on a `PdfDocument` object.
- **Accounts** (`Login`, `AuthContext`, `BrowserStorage`):
  - local storage is a `LocalStorage` object whose fields are the stored entries;
  - the auth provider and the login page are classes whose methods are the handlers;
  - the lookups are pure functions over the user list.

Toasts are returned as values (`Toast`) instead of being shown.

## Model

| member | source | states |
|---|---|---|
| JsNumber.Max | src/utils/imageProcessing.ts:243 | `Math.max` is NaN exactly when an argument is NaN, and otherwise returns one of its arguments that neither is less than |
| JsNumber.Div | src/utils/imageProcessing.ts:243 | `/` on finite values with a non-zero divisor is the exact quotient; `0/0` and any NaN operand give NaN |
| JsNumber.Mul | src/utils/imageProcessing.ts:265 | `*` on finite values is the exact product; a NaN operand gives NaN |
| JsNumber.Floor | src/utils/imageProcessing.ts:265 | `Math.floor` of a finite value is the integer at most one below it and not above it; NaN and infinities pass through |
| JsNumber.ClampReal | src/utils/imageProcessing.ts:36-38 | storing a finite value into a Uint8ClampedArray clamps it to [0, 255] and rounds it to within one half, a tie going to the even neighbour |
| JsNumber.ToUint8Clamp | src/utils/imageProcessing.ts:265 | storing NaN or -Infinity gives 0, +Infinity gives 255, and a finite value is clamped and rounded as ClampReal states |
| JsNumber.RoundedThird | src/utils/imageProcessing.ts:35-36 | a stored third of a byte sum is exactly `(sum + 1) div 3`: it never lands on a half |
| PixelBuffer.MapPixels | src/utils/imageProcessing.ts:34 | a stride-4 pass that rewrites each pixel from its own bytes keeps the buffer length |
| PixelBuffer.MapPixelsAt | src/utils/imageProcessing.ts:34 | pixel k of the pass's result is the rewrite of input pixel k |
| PixelBuffer.MapPixelsUnique | src/utils/imageProcessing.ts:34 | any buffer that holds the rewrite of every input pixel at the same position is the pass's result |
| ImageProcessing.GrayscaleBuffer | src/utils/imageProcessing.ts:34-39 | the grayscale pass keeps the buffer length |
| ImageProcessing.ConvertToGrayscale | src/utils/imageProcessing.ts:34-39 | the in-place loop leaves the buffer equal to the grayscale specification of the old buffer |
| ImageProcessing.GrayPixel | src/utils/imageProcessing.ts:35-38 | a grayscale pixel has R = G = B = `(r + g + b + 1) div 3`, the mean rounded to nearest, and keeps its alpha |
| ImageProcessing.GrayscaleAt | src/utils/imageProcessing.ts:34-39 | every pixel of the grayscale buffer is the rounded mean of the input pixel, with alpha unchanged |
| ImageProcessing.GrayscaleIdempotent | src/utils/imageProcessing.ts:34-39 | converting a grayscale buffer again changes nothing |
| ImageProcessing.GrayscaleOfPrimaries | src/utils/imageProcessing.ts:35-38 | pure red, green and blue become 85 and white stays 255 |
| ImageProcessing.HeatmapBuffer | src/utils/imageProcessing.ts:85-122 | the heatmap pass keeps the buffer length |
| ImageProcessing.HeatmapColour | src/utils/imageProcessing.ts:96-121 | for a vessel probability in 0..255, the thresholds 180, 150, 120 and 90 on `255 - g` are the green-byte bands below 75, 105, 135 and 165 |
| ImageProcessing.HeatmapPixel | src/utils/imageProcessing.ts:93-121 | a heatmap pixel takes the band colour of its green byte and keeps its alpha |
| ImageProcessing.HeatmapBand | src/utils/imageProcessing.ts:96-121 | a heatmap colour is one of red, orange (255, 165, 0), yellow, blue or black |
| ImageProcessing.CreateHeatmap | src/utils/imageProcessing.ts:85-122 | the in-place loop leaves the buffer equal to the heatmap specification of the old buffer |
| ImageProcessing.HeatmapAt | src/utils/imageProcessing.ts:93-121 | each output colour depends only on the input green byte: red below 75, orange below 105, yellow below 135, blue below 165, black otherwise; alpha unchanged |
| ImageProcessing.HeatmapOfZeroGreen | src/utils/imageProcessing.ts:93-100 | an image without green becomes all red, alpha unchanged |
| ImageProcessing.MaxGreenIsMaximum | src/utils/imageProcessing.ts:231-239 | the largest green byte bounds every pixel's green and is attained, or is 0 |
| ImageProcessing.MaxGreenBounds | src/utils/imageProcessing.ts:238 | every pixel's green is at most the largest green byte |
| ImageProcessing.MaxGreenStep | src/utils/imageProcessing.ts:238 | one more pixel raises the running maximum exactly when its green is larger |
| ImageProcessing.GradCamBuffer | src/utils/imageProcessing.ts:231-266 | the Grad-CAM pass keeps the buffer length |
| ImageProcessing.PeakIntensityIsMaximum | src/utils/imageProcessing.ts:231-239 | the final `maxIntensity` is at least every pixel's intensity and equals one of them (or 0), within [0, 1] |
| ImageProcessing.CollectIntensities | src/utils/imageProcessing.ts:231-239 | pass 1 pushes one intensity `g/255` per pixel in order and ends with `maxIntensity` equal to the peak intensity |
| ImageProcessing.Normalize | src/utils/imageProcessing.ts:243 | a non-negative intensity is divided by a non-zero maximum; a negative one becomes 0; with a zero maximum a non-positive one becomes NaN; NaN stays NaN |
| ImageProcessing.CamColour | src/utils/imageProcessing.ts:252-260 | the colour is one of the four band colours; blue exactly below 0.25 and red exactly from 0.75 on; NaN and +Infinity fail every test and give red |
| ImageProcessing.CamAlpha | src/utils/imageProcessing.ts:265 | a normalised value in [0, 1] gets alpha `floor(255 n)`; NaN gets 0 |
| ImageProcessing.NormalizeInUnit | src/utils/imageProcessing.ts:243 | normalising a non-negative intensity by a positive maximum at least as large gives a finite value in [0, 1] |
| ImageProcessing.NormalizeIntensities | src/utils/imageProcessing.ts:242-244 | pass 2 replaces each entry by its normalised value, keeps the count, and gives values in [0, 1] for a positive maximum and NaN for a zero one |
| ImageProcessing.CamBufferWitness | src/utils/imageProcessing.ts:247-266 | the colour-map pass has a well-defined result for any intensity list |
| ImageProcessing.ApplyColourMap | src/utils/imageProcessing.ts:247-266 | pass 3 writes pixel k from intensity k: its band colour and `floor(intensity * 255)` as alpha |
| ImageProcessing.CreateGradCam | src/utils/imageProcessing.ts:231-266 | the three passes leave the buffer equal to the Grad-CAM specification of the old buffer |
| ImageProcessing.NormalizeByGreen | src/utils/imageProcessing.ts:236-243 | with a positive peak, the normalised intensity is exactly `g / maxG` |
| ImageProcessing.CamColourByGreen | src/utils/imageProcessing.ts:252-260 | the band tests against 0.25, 0.5 and 0.75 become the integer tests `4g < maxG`, `2g < maxG` and `4g < 3 maxG` |
| ImageProcessing.ScaledFloor | src/utils/imageProcessing.ts:265 | `Math.floor(norm * 255)` is the integer quotient `255 g div maxG` |
| ImageProcessing.CamAlphaByGreen | src/utils/imageProcessing.ts:265 | the stored alpha is `255 g div maxG`, within [0, 255] |
| ImageProcessing.GradCamPixelByGreen | src/utils/imageProcessing.ts:247-266 | with a positive peak, a pixel gets the integer-stated band and alpha `255 g div maxG` |
| ImageProcessing.GradCamPixelWithoutGreen | src/utils/imageProcessing.ts:243-265 | with a zero peak, the NaN normalisation fails every band test: hot red with alpha 0 |
| ImageProcessing.GradCamBufferAt | src/utils/imageProcessing.ts:231-266 | pixel k of the Grad-CAM buffer is the colour map of pixel k under the peak intensity |
| ImageProcessing.GradCamAt | src/utils/imageProcessing.ts:231-266 | each output pixel, in integer terms: the band of `g` against `maxG` and alpha `255 g div maxG`, or red with alpha 0 when no pixel has green |
| ImageProcessing.GradCamAlphaMonotone | src/utils/imageProcessing.ts:265 | with a positive peak, a greener pixel is never more transparent |
| ImageProcessing.GradCamBrightestIsOpaqueRed | src/utils/imageProcessing.ts:258-265 | the greenest pixel becomes opaque red |
| ImageProcessing.GradCamUniformGreen | src/utils/imageProcessing.ts:231-266 | an image of one non-zero green value becomes all opaque red |
| ImageProcessing.GradCamWithoutGreen | src/utils/imageProcessing.ts:231-266 | an image without green becomes all red with alpha 0 |
| Strings.UpperChar | src/pages/Upload.tsx:24 | upper-casing a character maps a lower-case letter to its capital and leaves every other character unchanged |
| Strings.LowerChar | src/pages/Login.tsx:168 | lower-casing a character maps a capital to its lower-case letter and leaves every other character unchanged |
| Strings.ToUpper | src/pages/Upload.tsx:24 | `toUpperCase` keeps the length and upper-cases each character in place |
| Strings.ToLower | src/pages/Login.tsx:168 | `toLowerCase` keeps the length and lower-cases each character in place |
| Strings.UpperOfLower | src/pages/Upload.tsx:24 | upper-casing ignores any prior lower-casing |
| Strings.LowerOfUpper | src/pages/Login.tsx:168 | lower-casing ignores any prior upper-casing |
| Strings.UpperIdempotent | src/pages/Upload.tsx:24 | upper-casing twice is upper-casing once |
| Strings.IncludesIff | src/pages/Upload.tsx:26-30 | the substring search succeeds exactly when the pattern occurs at some position |
| Strings.IncludesAt | src/pages/Upload.tsx:26-30 | an occurrence at any position makes the search succeed |
| Strings.IncludesTransitive | src/pages/Upload.tsx:26 | a string containing a pattern contains every substring of that pattern |
| RiskGauge.FromName | src/components/RiskGauge.tsx:13 | parsing a level name gives the level so named, or nothing when no level has that name |
| RiskGauge.FromNameOfName | src/components/RiskGauge.tsx:13 | every level's name parses back to it |
| RiskGauge.Info | src/components/RiskGauge.tsx:21-47 | the table is total and each level's colour is "risk-" followed by its name |
| RiskGauge.NameInjective | src/components/RiskGauge.tsx:13 | distinct levels have distinct names |
| RiskGauge.ColorInjective | src/components/RiskGauge.tsx:21-47 | distinct levels have distinct colours |
| RiskGauge.IndexOf | src/components/RiskGauge.tsx:54 | `indexOf` gives the first position holding the value, or -1 exactly when it is absent |
| RiskGauge.RiskIndex | src/components/RiskGauge.tsx:54 | every level's index lies in 0..4, never -1, and the list holds the level there |
| RiskGauge.RiskIndexOfLevel | src/components/RiskGauge.tsx:53-54 | the level at position i has index i |
| RiskGauge.RiskIndexIsSeverity | src/components/RiskGauge.tsx:53-54 | the index is the level's rank from none to severe |
| RiskGauge.GaugePercentage | src/components/RiskGauge.tsx:55 | the percentage is 25 times the index, within [0, 100]; it is 0 exactly for no risk and 100 exactly for severe |
| RiskGauge.GaugePercentageIncreasing | src/components/RiskGauge.tsx:53-55 | the percentage strictly increases with severity |
| RiskGauge.MaskLeft | src/components/RiskGauge.tsx:80-84 | the mask starts where the fill ends: its left offset is the level's gauge percentage, within [0, 100] |
| RiskGauge.MaskWidth | src/components/RiskGauge.tsx:80-84 | the mask's width lies in [0, 100] and adds up to 100 with its left offset: the mask ends at the gauge's right end |
| RiskGauge.LevelLabel | src/components/RiskGauge.tsx:117 | the label has the form "Risk Level k/5" with a single digit k |
| RiskGauge.LevelLabelNumber | src/components/RiskGauge.tsx:117 | the digit shown is the index plus one, within 1..5 |
| Upload.FilePath | src/pages/Upload.tsx:23 | the path examined is `webkitRelativePath` when non-empty, else the name |
| Upload.DetermineRiskFirstMatch | src/pages/Upload.tsx:21-33 | the classifier yields a level exactly when that level's keyword occurs in the upper-cased path and no keyword of a lower severity does |
| Upload.DetermineRiskNone | src/pages/Upload.tsx:26-32 | the classifier yields nothing exactly when no keyword occurs |
| Upload.DetermineRiskIgnoresCase | src/pages/Upload.tsx:24 | lower-casing the path does not change the outcome |
| Upload.AnnotatedIsNoRisk | src/pages/Upload.tsx:26 | a path containing "ANNOTATED_SEVERE" is classified as no risk |
| Upload.Scaled | src/pages/Upload.tsx:67-68 | `Math.floor(r * n)` of a draw in [0, 1) is in 0..n-1 |
| Upload.DemoResult | src/pages/Upload.tsx:61-73 | the assembled result has confidence in 70..99 and a valid level name; a keyword level takes precedence, and then the confidence is `floor(r0 * 30) + 70` from the first draw; it carries the image URL and the three derived images |
| Upload.DemoResultRandomLevel | src/pages/Upload.tsx:67-68 | without a keyword, the level is the list entry at `floor(r0 * 5)` and the confidence is `floor(r1 * 30) + 70` |
| Upload.UploadPage.constructor | src/pages/Upload.tsx:12-13 | no file selected and not processing |
| Upload.UploadPage.HandleImageUpload | src/pages/Upload.tsx:17-19 | selecting a file records it and changes nothing else |
| Upload.UploadPage.HandleAnalyze | src/pages/Upload.tsx:35-90 | no file: the "No image uploaded" toast and no result; a failed transform: the failure toast; otherwise the stored result is the assembled result; processing ends false either way |
| JsPdf.Placements | src/pages/Results.tsx:86-135 | the image placements of a drawing-call list are at most as many as the calls |
| JsPdf.PlacementsAppend | src/pages/Results.tsx:81-135 | placements of consecutive call lists come in call order |
| JsPdf.PageBreaks | src/pages/Results.tsx:103 | a call list breaks no page exactly when it has no `addPage` |
| JsPdf.PageBreaksAppend | src/pages/Results.tsx:103 | page breaks of consecutive call lists add up |
| JsPdf.PdfDocument.constructor | src/pages/Results.tsx:58 | a new document has no drawing calls |
| JsPdf.PdfDocument.PageCount | src/pages/Results.tsx:58 | a document has one page until a page is added, and always at least one |
| JsPdf.PdfDocument.SetFontSize | src/pages/Results.tsx:61 | records one font-size call |
| JsPdf.PdfDocument.AddText | src/pages/Results.tsx:62 | records one text call |
| JsPdf.PdfDocument.AddImage | src/pages/Results.tsx:86 | records one image call |
| JsPdf.PdfDocument.AddPage | src/pages/Results.tsx:103 | records one page break, so the page count grows by one |
| Results.RecommendationsFor | src/pages/Results.tsx:164-210 | each of the five levels has six recommendations |
| Results.GetRecommendations | src/pages/Results.tsx:163-213 | the lookup always gives six recommendations |
| Results.GetRecommendationsOfLevel | src/pages/Results.tsx:212 | a valid level name gives that level's list |
| Results.GetRecommendationsFallback | src/pages/Results.tsx:212 | any other value gives the moderate list |
| Results.ActiveImageUrl | src/pages/Results.tsx:230-242 | the selected derived image when present and non-empty, otherwise the original |
| Results.ActiveImageTitle | src/pages/Results.tsx:245-257 | every tab has a non-empty title, and only the original tab is titled "Original Retinal Image" |
| Results.ActiveImageTitleInjective | src/pages/Results.tsx:245-257 | each tab has its own title |
| Results.Digits | src/pages/Results.tsx:67 | a natural number is written as decimal digits with no leading zero |
| Results.DigitsRoundTrip | src/pages/Results.tsx:67 | the digits written for a natural number read back, left to right, as that number |
| Results.DecimalRoundTrip | src/pages/Results.tsx:67 | the confidence text written for any integer, with a minus sign when negative, reads back as that integer |
| Results.RecommendationLines | src/pages/Results.tsx:73-75 | recommendation i is drawn as "- " and its text at (20, 90 + 10 i), in list order |
| Results.RecommendationLinesPlain | src/pages/Results.tsx:73-75 | the recommendation lines place no image and break no page |
| Results.ReportRecommendations | src/pages/Results.tsx:72-75 | "Recommendations:" at y = 80 comes seventh, and recommendation i follows at y = 90 + 10 i |
| Results.FirstPageBreaks | src/pages/Results.tsx:58-100 | page one breaks no page |
| Results.SecondPageBreaks | src/pages/Results.tsx:103-142 | page two starts with the one page break and has no other |
| Results.Report | src/pages/Results.tsx:58-142 | whichever images exist, the report has exactly one page break: two pages |
| Results.ReportLayout | src/pages/Results.tsx:58-142 | the six lines after the "Recommendations:" heading are the stored level's recommendations, or the moderate ones when the value names no level |
| Results.RecommendationSection | src/pages/Results.tsx:72-75 | the recommendation lines come right after the seven calls of the header |
| Results.FirstPageImages | src/pages/Results.tsx:86-100 | page one places the original at (20, 120), then the grayscale image at (110, 120) only when present |
| Results.SecondPageImages | src/pages/Results.tsx:108-142 | page two places the heatmap at (20, 30), then the Grad-CAM image at (110, 30), each only when present |
| Results.ResultsPage.constructor | src/pages/Results.tsx:21-23 | the original image is selected and no download is running |
| Results.ResultsPage.HandleDownloadReport | src/pages/Results.tsx:51-161 | without a result nothing happens; otherwise downloading ends false, and the saved report is the layout with the level's recommendations plus the success toast, or on failure nothing is saved and the failure toast is shown |
| Results.ResultsPage.SelectImage | src/pages/Results.tsx:282-305 | a tab button selects its image and changes nothing else |
| Results.DrawReport | src/pages/Results.tsx:58-142 | the drawing calls issued are the report layout |
| Results.DrawFirstPage | src/pages/Results.tsx:61-100 | the calls issued are page one |
| Results.DrawHeader | src/pages/Results.tsx:61-72 | the calls issued are the title, the result details and the recommendations heading |
| Results.DrawRecommendations | src/pages/Results.tsx:73-75 | the loop issues the recommendation lines in order |
| Results.DrawSecondPage | src/pages/Results.tsx:103-142 | the calls issued are page two |
| Results.DrawSecondHeading | src/pages/Results.tsx:103-105 | the calls issued are the page break and the heading of page two |
| Results.DrawHeatmap | src/pages/Results.tsx:108-124 | the calls issued are the heatmap block |
| Results.DrawGradCam | src/pages/Results.tsx:127-142 | the calls issued are the Grad-CAM block |
| BrowserStorage.LocalStorage.constructor | src/contexts/AuthContext.tsx:33-41 | storage holds the given entries |
| AuthContext.WithoutPassword | src/contexts/AuthContext.tsx:49 | the session copy drops the password and keeps email, question and answer |
| AuthContext.AuthProvider.constructor | src/contexts/AuthContext.tsx:27-29 | no user, loading, empty history |
| AuthContext.AuthProvider.Mount | src/contexts/AuthContext.tsx:31-45 | the user and the history are restored exactly when stored, and loading ends false |
| AuthContext.AuthProvider.Login | src/contexts/AuthContext.tsx:47-64 | the current and the persisted user are the input without its password; exactly one history entry with the input email is appended and persisted |
| AuthContext.AuthProvider.Logout | src/contexts/AuthContext.tsx:66-69 | the current and the persisted user are cleared; the history is untouched |
| Login.FindByCredentials | src/pages/Login.tsx:60-61 | nothing is found exactly when no stored user has both the email and the password; otherwise the first such user |
| Login.FindByEmail | src/pages/Login.tsx:150-151 | nothing is found exactly when no stored user has the email; otherwise the first such user |
| Login.EmailRegistered | src/pages/Login.tsx:103 | true exactly when some stored user has the email |
| Login.ResetPassword | src/pages/Login.tsx:196-202 | the list keeps its length; every user with the email gets the new password, and every other user is unchanged |
| Login.SessionUser | src/pages/Login.tsx:65-69 | the session record carries the stored email, question and answer, but no password |
| Login.SameAnswer | src/pages/Login.tsx:168 | identical answers are accepted, and accepted answers have the same length |
| Login.SameAnswerIgnoresCase | src/pages/Login.tsx:168 | the answer comparison ignores case on either side |
| Login.SignupKeepsEmailsUnique | src/pages/Login.tsx:103-122 | appending an account whose email is not registered keeps emails unique |
| Login.ResetKeepsEmailsUnique | src/pages/Login.tsx:196-202 | a reset keeps emails unique |
| Login.LoginAfterSignup | src/pages/Login.tsx:61-122 | after signup with a fresh email, logging in with those credentials finds the new account |
| Login.LoginAfterReset | src/pages/Login.tsx:61-202 | after a reset for an email, that email logs in with a password exactly when it is the new one and the email is registered |
| Login.ResetLeavesOthers | src/pages/Login.tsx:196-202 | a reset does not change logins under any other email |
| Login.LoginPage.constructor | src/pages/Login.tsx:16-23 | empty form with the default security question; not in reset mode |
| Login.LoginPage.HandleLogin | src/pages/Login.tsx:56-84 | on a credentials match, the session user is that account without password and the success toast is shown; otherwise the failure toast and no session change; users never change |
| Login.LoginPage.HandleSignup | src/pages/Login.tsx:87-137 | a password mismatch or a taken email leaves the users unchanged with its toast; otherwise exactly the new account is appended and logged in |
| Login.LoginPage.HandleForgotPassword | src/pages/Login.tsx:146-163 | an unknown email leaves `foundUser` unchanged with the not-found toast; a known one records the first such user |
| Login.LoginPage.HandleCheckAnswer | src/pages/Login.tsx:165-181 | the answer is accepted exactly when a user was found and the answers agree ignoring case; nothing changes |
| Login.LoginPage.HandleResetPassword | src/pages/Login.tsx:183-216 | a password shorter than 6 changes nothing; otherwise the found user's email gets the new password and the reset form is cleared; the security answer is never consulted |
| Login.NewAccount | src/pages/Login.tsx:113-118 | the new account has the form's email, password, security question and security answer |

## Left out

- Image decoding and encoding: loading the image, the canvas, `getImageData`, `putImageData` and `toDataURL`. A transform is modelled on the pixel array alone. The `ImageData` width and height are not modelled; the array length is always a multiple of 4, which every transform requires. Idempotence of grayscale is a claim about the buffer, not about a re-encoded data URL.
- Floating point: finite numbers are exact rationals. In IEEE-754 doubles, `g/255`, the division by the maximum and the product with 255 are each rounded. The rounded product can fall just below an integer, so the stored Grad-CAM alpha can be one less than `255 g div maxG`; g = 7 with maxG = 35 is such a pair, storing 50 instead of 51. Rounding can likewise move a value lying exactly on a band boundary into the band below: g = 105 with maxG = 140 normalises to just under 0.75 and is coloured cyan-green, not red. ImageProcessing.CamAlphaByGreen, ImageProcessing.CamColourByGreen and the lemmas built on them state the exact-rational values.
- The commented-out earlier Grad-CAM (src/utils/imageProcessing.ts:139-204, 278-292) is dead code.
- Heatmap alpha follows the code: it is left unchanged, not set to opaque. In the Grad-CAM image of an image without green, every pixel becomes hot red with alpha 0, as the code's NaN arithmetic gives.
- Strings.UpperChar: only the ASCII letters a-z change case; `toUpperCase` also maps other Unicode letters, such as accented ones.
- Strings.LowerChar: only the ASCII letters A-Z change case; `toLowerCase` also maps other Unicode letters.
- Strings.ToUpper, Strings.ToLower: they apply the ASCII-only character maps. Strings are sequences of characters, not UTF-16 code units, and no case mapping that changes the length (such as "ß" to "SS") is modelled.
- Upload.DetermineRisk: because of the ASCII-only upper-casing, a path whose keyword is spelt with a non-ASCII letter that `toUpperCase` maps to an ASCII one gets no keyword level in the model. For example, "mıld.png" (dotless i) is MILD in the code, and "ſevere.png" (long s) is SEVERE.
- Login.SameAnswer: because of the ASCII-only lower-casing, answers that differ only in the case of a non-ASCII letter, such as "Émile" and "émile", are accepted by the code but not by the model.
- Login.LoginPage.HandleResetPassword: the minimum length is counted in characters, while `newPassword.length` counts UTF-16 code units. A password of three characters outside the Basic Multilingual Plane, such as "😀😀😀", has length 6 and is accepted by the code but refused by the model.
- `Math.random`, `Date.now` and `toLocaleDateString` are parameters (`draws`, `now`, `date`). The three-second delays are not modelled.
- Upload.UploadPage.HandleAnalyze: a failure anywhere in the image transforms is modelled as absent derived images. The object URL is a parameter.
- Results.ResultsPage.HandleDownloadReport: a jsPDF failure is the `fails` flag. `isDownloading` being true during generation is not stated, only its final value. Image loads without `onerror` can hang forever, which is a timing matter. `doc.save` is modelled as recording the drawing calls.
- The results page's load effect (src/pages/Results.tsx:26-49) is reduced to the constructor's argument. Its JSON parsing, error toast and redirect are not modelled.
- Results.GetRecommendations: a level string naming an inherited object property, such as "toString", would not fall back in JavaScript. Only the five level names select a list; every other string gives the moderate list.
- JSON (de)serialisation of local and session storage: stored values are fields of `LocalStorage` and parameters.
- Toasts are return values. Navigation, the intro timer, the tab switch and `handleChange` are not modelled.
- React's deferred state updates are not modelled: each handler's assignments take effect in order.
- Login.LoginPage.HandleResetPassword: the case of no user found is not followed. The reset form is rendered only when a user was found (src/pages/Login.tsx:261), so this case cannot arise from the page. In the code, a non-empty stored user list makes the `map` callback throw on `foundUser.email`. An empty list never calls the callback: the code then stores "[]", shows the success toast and clears the form. The model returns no toast and changes nothing in both cases.
- The form leads to the reset step on any non-empty answer, whether or not the answer was accepted. This shows as the reset handler never consulting the answer.
- The image uploader component and the static pages (About, Index, HowItWorks, Footer, Navbar, HeroSection, FeatureSection) hold no logic of the core.
