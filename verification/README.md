# Portfolio page and scene: a Dafny model of the logic under the markup

The portfolio is a single-page site. Its `App` component shows the developer's
projects, certificates and contact links. Behind the page, the `Scene`
component draws an animated 3D background. Underneath the markup sits a small
amount of real logic, and that is what this project models and proves:

- **Profile image processing** (`ProfileCrop`). When the page mounts, it loads
  `/profile.jpg` and takes the centred square crop of side `min(w, h)`. It
  draws that crop into a 512x512 canvas and encodes it as a data URL. If the
  load is cancelled, no 2D context exists or encoding throws, nothing is
  stored and the `<img>` keeps showing `/profile.jpg`.
- **Page UI state** (`Page`). The class `PageState` holds the React state
  variables as fields. Its methods are the event handlers: "See More" and
  "Show Less" for the project list, certificate cards and the certificate
  modal, the mobile-menu button and `scrollToSection`, and the resume
  download button and its timer.
- **Breakpoints** (`Responsive`). `checkResponsive` sorts the window width
  into mobile (< 768), tablet ([768, 1024)) or desktop. Each class has its
  own scale, camera distance, field of view and spacing constants.
- **Visibility and startup easing** (`Visibility`). This module holds the
  scroll-to-hero-fraction clamp, `THREE.MathUtils.lerp` easing, the startup
  progress and its cubic ease-out. It also computes, from these, the scale
  and height of the name, the scale of each model, and the arguments of the
  name's and the groups' fades.
- **Material fading** (`MaterialFade`). `applyFade` caches a material's
  `transparent`, `opacity` and `depthWrite` in `__orig` on first touch. It
  then writes the temporary fade values. On restore it puts the cached values
  back and deletes the cache.
- **Scene refs and digital rain** (`SceneAnim`). The class `SceneRefs` holds
  the breakpoint flags, the pointer-down flag, the start time and the four
  visibility refs. Its methods are the resize, pointer and scroll listeners
  and the state-changing part of the frame callback. `RainStep` moves the
  rain glyphs down and wraps them to the top.

All quantities in the scene are `real`, and every property holds exactly over
the reals. The crop works on `nat`, because the source uses `Math.floor` on
non-negative integers, which is Dafny's `/`.

The certificate modal is rendered whenever `selectedCertificate` is truthy
(src/App.tsx:1898), that is for any id other than 0, whether or not a
certificate carries it. Its backdrop, content panel and close button then
appear (src/App.tsx:1899-1922); only the certificate's details are missing
when the lookup finds nothing (src/App.tsx:1927-1930). `Page.ModalOpen`,
`Page.PageState.SelectCertificate` and `Page.PageState.ModalCertificate`
model exactly this.

## Model

| member | source | states |
|---|---|---|
| `ProfileCrop.CenteredSquare` | src/App.tsx:63-67 | the crop is a square whose side is the smaller dimension, lying inside the image; at least one offset is 0, and the margins on each axis differ by at most one pixel (centred, rounded down) |
| `ProfileCrop.SquareIsNotCropped` | src/App.tsx:63-67 | a square input is cropped at (0,0) with its full size |
| `ProfileCrop.LandscapeCrop` | src/App.tsx:63-67 | a landscape input (w > h) is cropped at x = floor((w-h)/2), y = 0 |
| `ProfileCrop.PortraitCrop` | src/App.tsx:63-67 | a portrait input (w < h) is cropped at x = 0, y = floor((h-w)/2) |
| `ProfileCrop.CanvasRect` | src/App.tsx:69-72 | the output canvas is 512x512 at the origin |
| `ProfileCrop.OnLoad` | src/App.tsx:61-90 | a draw happens iff the load is not cancelled and a 2D context exists, and it copies the centred crop onto the whole canvas; a data URL results iff, in addition, encoding succeeds |
| `ProfileCrop.DrawFillsCanvas` | src/App.tsx:69-81 | for any input size, a successful draw copies a square crop inside the image onto the full 512x512 canvas |
| `ProfileCrop.DisplayedSource` | src/App.tsx:672 | the image shows the processed data URL when present, else `/profile.jpg` |
| `Page.DisplayedProjects` | src/App.tsx:406-408 | the displayed projects are the first min(6, N) projects in order when collapsed, and all N when expanded |
| `Page.SeeMoreVisible` | src/App.tsx:1503 | "See More Projects" (`!showAllProjects && allProjects.length > 6`) is rendered exactly when some project is not displayed |
| `Page.ShowLessVisible` | src/App.tsx:1528 | "Show Less" (`showAllProjects`) is rendered only while every project is displayed |
| `Page.CollapsedIsPrefix` | src/App.tsx:406-408 | collapsed shows exactly the prefix of length min(6, N); expanded shows the whole list |
| `Page.PaginationButtonsExclusive` | src/App.tsx:1503-1528 | "See More" (shown iff collapsed and N > 6) and "Show Less" (shown iff expanded) are never shown together |
| `Page.NoButtonMeansAllShown` | src/App.tsx:1503-1528 | when neither button is shown, every project is already displayed |
| `Page.FindCertificate` | src/App.tsx:1927-1930 | lookup returns the first certificate in the list carrying the id, and returns nothing iff no certificate carries it |
| `Page.FindCertificateUnique` | src/App.tsx:1927-1930 | with distinct ids, looking up a card's id returns exactly that card |
| `Page.ModalOpen` | src/App.tsx:1898 | the modal is rendered iff the selection is truthy: for every selected id other than 0, whether or not a certificate carries it, and never for none or 0 |
| `Page.PageState.constructor` | src/App.tsx:42-53 | at mount no certificate is selected, the menu is closed, no download runs, the list is collapsed and no processed profile exists |
| `Page.PageState.Displayed` | src/App.tsx:406-408 | the cards on screen are all projects when expanded, and exactly the first min(6, N) projects, in order, when collapsed |
| `Page.PageState.ModalCertificate` | src/App.tsx:1898-1930 | a certificate is shown only while the modal is open, and only one from the list whose id is the selected one; an open modal whose id some certificate carries does show a certificate |
| `Page.PageState.OnProfileLoad` | src/App.tsx:61-90 | returns the draw call of `OnLoad`; `processedProfile` becomes the data URL only when not cancelled, a context exists and encoding succeeds, and otherwise stays as it was |
| `Page.PageState.ProfileSource` | src/App.tsx:672 | the image shows the processed data URL when one exists, and `/profile.jpg` otherwise |
| `Page.PageState.SeeMore` | src/App.tsx:1513 | sets the flag; afterwards all projects are displayed and "Show Less" is shown |
| `Page.PageState.ShowLess` | src/App.tsx:1537-1540 | clears the flag; afterwards the first min(6, N) projects are displayed, "Show Less" is hidden, and "See More" is shown iff N > 6 |
| `Page.PageState.SelectCertificate` | src/App.tsx:1601 | clicking a card selects that card's id; a non-zero id opens the modal, which shows the certificate lookup finds for it, or no details when none carries it |
| `Page.PageState.ClickModal` | src/App.tsx:1904-1919 | a backdrop or close-button click resets the selection to null and closes the modal; a click inside the content leaves it unchanged |
| `Page.CardClickOpensThatCard` | src/App.tsx:1601 | with distinct ids and a non-zero id, a card click followed by a click inside the panel shows exactly that card, and a backdrop click then closes the modal |
| `Page.PageState.ToggleMenu` | src/App.tsx:478 | the menu button flips `mobileMenuOpen` |
| `Page.PageState.ScrollToSection` | src/App.tsx:168-171 | any section navigation leaves the mobile menu closed |
| `Page.PageState.PressDownload` | src/App.tsx:173-174 | a press starts a download iff none is running (the button is `disabled={isDownloading}`, line 564), and afterwards `isDownloading` holds |
| `Page.PageState.DownloadFinished` | src/App.tsx:184-186 | the timer after the download step clears `isDownloading` |
| `Responsive.Classify` | src/components/Scene.tsx:19-22 | the width is mobile iff < 768, tablet iff in [768, 1024), desktop iff >= 1024 |
| `Responsive.FromFlags` | src/components/Scene.tsx:29-31 | the `isMobile ? … : isTablet ? … : …` chains: the mobile flag wins, tablet needs the mobile flag clear, desktop needs both clear |
| `Responsive.BreakpointsPartition` | src/components/Scene.tsx:20-21 | the mobile and tablet flags are never both set, the breakpoint is the one the flags select, and it is desktop iff both flags are clear |
| `Responsive.LayoutOf` | src/components/Scene.tsx:29-31 | all seven constants per breakpoint: mobile gets scale 0.5, camera distance 14, FOV 85, corner spacing 5.5/1.2 and above-name spacing 1.2 at height -1.5; tablet 0.75, 12, 80, 7.5/1.6, 1.6, -1.7; desktop 1, 10, 75, 9/2, 1.8, -1.9 (also Scene.tsx:185-186, 331-332) |
| `Responsive.LayoutMonotone` | src/components/Scene.tsx:29-31 | a wider window never gets a smaller scale, corner spacing (horizontal or vertical) or above-name spacing, nor a larger camera distance, field of view or above-name height |
| `Responsive.BaseScales` | src/components/Scene.tsx:104-111 | the six model base scales are 1.15, 1.1, 1.1, 1.05, 0.65 and 1.6 times `responsiveScale`, all non-negative for a non-negative scale |
| `Visibility.HeroFrac` | src/components/Scene.tsx:120-124 | the hero fraction lies in [0,1]: it is 1 for y <= 0, 0 for y >= innerHeight, and 1 - y/innerHeight in between |
| `Visibility.HeroFracAntitone` | src/components/Scene.tsx:122 | the hero fraction never increases as the page scrolls down |
| `Visibility.Lerp` | src/components/Scene.tsx:299-303 | one easing step shrinks the distance to the target by the factor 1 - t |
| `Visibility.LerpBetween` | src/components/Scene.tsx:299-303 | with a factor in [0,1] (0.05 and 0.06 here) one easing step lands between the current value and the target |
| `Visibility.LerpStepsStayInUnit` | src/components/Scene.tsx:299-315 | starting in [0,1] and eased toward a target in [0,1], the value stays in [0,1] for any number of frames |
| `Visibility.LerpStepsDistance` | src/components/Scene.tsx:299-315 | after n frames the distance to the target is (1 - t)^n times the initial distance |
| `Visibility.Progress` | src/components/Scene.tsx:246-247 | progress is at most 1, lies in [0,1] once time has not gone back past the start, and is 1 from 1.2 s on |
| `Visibility.ProgressMonotone` | src/components/Scene.tsx:247 | progress never decreases as time moves forward |
| `Visibility.Eased` | src/components/Scene.tsx:309 | the cubic ease-out maps [0,1] into [0,1] |
| `Visibility.EasedMonotone` | src/components/Scene.tsx:309 | eased(0) = 0, eased(1) = 1, and the ease-out is non-decreasing on [0,1] |
| `Visibility.ScaleVal` | src/components/Scene.tsx:310 | the factor `scaleVal` lies in [0.6, 1]; it is 0.6 before easing in and 1 when fully eased |
| `Visibility.TextScale` | src/components/Scene.tsx:316-317 | the name's applied scale `scaleVal * eased * scrollAnim` lies in [0, 1]; it is 0 at startup or when scrolled away, and 1 when fully eased and visible |
| `Visibility.ModelScale` | src/components/Scene.tsx:336-337 | a model's scale base*progress*visible lies in [0, base]; it is 0 at startup or when hidden, and base when both factors are 1 |
| `Visibility.TextFade` | src/components/Scene.tsx:324-328 | the name's fade opacity is progress*scrollAnim, so 0 at startup or when scrolled away, and in [0,1]; restore is requested iff progress >= 1 and scrollAnim > 0.99, so only at an opacity above 0.99 |
| `Visibility.GroupFade` | src/components/Scene.tsx:351 | a model group fades to the combined factor, which stays in [0,1], and restores iff the factor is at least 0.999, so only when the group is almost fully opaque |
| `Visibility.TextY` | src/components/Scene.tsx:319-322 | the name's height lies in [-1.6, 0.4]; it is 0.4 when fully eased and visible, 0.8 lower before easing in, and 1.2 lower when scrolled away |
| `MaterialFade.Fade` | src/components/Scene.tsx:270-293 | without restore, the existing cache is kept or the current settings are cached, and the material becomes transparent with opacity p and no depth writes; with restore it ends with exactly the original settings and no cache |
| `MaterialFade.FadeIdempotent` | src/components/Scene.tsx:270-293 | visiting a material twice with the same arguments equals visiting it once |
| `MaterialFade.RestoreWithoutCacheIsIdentity` | src/components/Scene.tsx:286-293 | restoring a material that is already at its originals (no cache) leaves it unchanged |
| `MaterialFade.FadeFramesKeepsCache` | src/components/Scene.tsx:270-280 | over any run of fades the cache keeps the settings from before the first one |
| `MaterialFade.FadeThenRestore` | src/components/Scene.tsx:270-293 | any run of fades followed by a restore returns the material exactly to its state before the first fade |
| `MaterialFade.Material.ApplyFade` | src/components/Scene.tsx:265-294 | the in-place update of one material's fields is `Fade` of its old state |
| `MaterialFade.ApplyFade` | src/components/Scene.tsx:255-297 | every material reached by the traversal, even one shared by several meshes, ends as `Fade` of its old state; null materials are skipped |
| `SceneAnim.SceneRefs.constructor` | src/components/Scene.tsx:97-102 | the refs start fully visible with no start time and no pointer down, and the layout is desktop until the first check |
| `SceneAnim.SceneRefs.CheckResponsive` | src/components/Scene.tsx:19-22 | the flags are set from the width, are never both true, and select the width's breakpoint |
| `SceneAnim.SceneRefs.OnPointerDown` | src/components/Scene.tsx:114 | pointerdown sets the flag |
| `SceneAnim.SceneRefs.OnPointerUp` | src/components/Scene.tsx:115 | pointerup clears the flag, after which the pointer input is zero for every mouse position |
| `SceneAnim.SceneRefs.PointerInput` | src/components/Scene.tsx:138-139 | miX and miY are 0 unless the pointer is held down, and equal the mouse position while it is |
| `SceneAnim.SceneRefs.OnScroll` | src/components/Scene.tsx:119-125 | both targets receive the same hero fraction, and the refs stay valid (every fraction in [0,1]) |
| `SceneAnim.SceneRefs.Frame` | src/components/Scene.tsx:245-315 | the start time is recorded only on the first frame; progress and progress*modelsVisibleAnim lie in [0,1] once time has not gone back; both visibility values take one lerp step (scrollAnim only when the name is mounted) and stay in [0,1] |
| `SceneAnim.StartupCompletes` | src/components/Scene.tsx:245-247 | the first frame shows progress 0, and a frame 1.2 s or more later shows progress 1 with the start time unchanged |
| `SceneAnim.ColourIndex` | src/components/Scene.tsx:161 | the particle colour index is a valid palette index |
| `SceneAnim.ColourIndexCycles` | src/components/Scene.tsx:155-161 | consecutive particles take consecutive colours of the eight-colour palette, cyclically |
| `SceneAnim.InitialRainY` | src/components/Scene.tsx:593 | a glyph's initial height is in [0, 10) |
| `SceneAnim.RainFall` | src/components/Scene.tsx:409-412 | one rain step keeps a height in [-10, 10] inside it; unless it wraps to 10 it falls by exactly 0.05*max(0.25, visible), and it wraps only from within that distance of -10 |
| `SceneAnim.RainStaysInRange` | src/components/Scene.tsx:408-412 | a glyph starting in [-10, 10] stays there over any run of frames, whatever the visibility |
| `SceneAnim.RainStep` | src/components/Scene.tsx:407-414 | every glyph's height takes one rain step, in place, and stays in [-10, 10] |

## Left out

- Markup, styling, motion animations, icons and the literal content. Projects and certificates are abstract sequences; the certificates' ids are assumed distinct only where `Page.FindCertificateUnique` and `Page.CardClickOpensThatCard` ask for it.
- Browser I/O: loading the image, `drawImage`'s pixels, JPEG encoding, building the download anchor, `window.open` (`handleViewResume`), scrolling and the `setTimeout` delays. These become parameters (`cancelled`, `hasContext`, `encoded`) or separate methods (`DownloadFinished`). The image `onerror` handler changes no state, so it has no method.
- `ProfileCrop.OnLoad`: the browser's behaviour for a zero-sized image is not modelled.
- The `onError` handler that swaps in a generated avatar URL when even `/profile.jpg` fails.
- The `canvasEventSource` state that hands `document.body` to the canvas. It is only a DOM handle.
- The three.js plumbing: GLTF loading, lights, camera, orbit controls, the background shader, and the transforms that are sums of sines and cosines of time. `obj.traverse` becomes a sequence of materials.
- `Math.random` initialisation of particles and glyph text. Only the range of a glyph's starting height is modelled (`SceneAnim.InitialRainY`).
- Listener registration and removal and React effect lifecycles. Only their effect on flags and targets is modelled.
- `MaterialFade.Fade`: the `?? 1` and `?? false` defaults for a material without `opacity` or `depthWrite` are not modelled. Every modelled material has both fields.
- `Visibility.HeroFrac`: requires `innerHeight > 0`. With a zero height the source divides by zero and produces NaN or an infinite value, and floating-point special values are not modelled.
- `SceneAnim.SceneRefs.OnScroll`: requires `innerHeight > 0` for the same reason.
- `SceneAnim.ColourIndexCycles`: proved for the source's eight-colour palette only, not for every palette length.
- Floating-point rounding: every scene quantity is an exact real.
