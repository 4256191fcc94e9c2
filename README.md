# Portfolio site: contact relay, navigation, carousel, hero grid and particles

This project models the logic of a personal portfolio web site in Dafny:

- the Express server's `POST /api/contact` handler (`server.js`). It checks the three
  fields, checks the e-mail against `^\S+@\S+\.\S+$`, composes the message for the mail
  provider and turns the provider's outcome into the JSON response. It also models
  `GET /api/health`;
- the contact section (`src/pages/NewContact.jsx`): the video card's play/pause and mute
  handlers, the form's field rules (`required`, the client pattern `^\S+@\S+$`), what a
  submission does when the mail widget settles, and the submit button;
- the navigation bar (`src/components/Nav.jsx`): the mobile menu toggle and the scroll
  handler that picks the active section;
- the pinned project carousel (`src/pages/Project.jsx`): the rule that maps scroll
  progress to a project, the title and link it writes, the initial card styles, and the
  tweens the timeline is built from;
- the hero grid (`src/pages/hero/Hero.jsx`): the grid size from the element's size, and
  the highlighted cells a timer adds and removes;
- the particle background (`src/components/MyParticles.jsx`): the bouncing `Particle`,
  rebuilding the particles on resize, and one animation frame.

Code that changes state in place is written as classes with `modifies` clauses, and
loops are proved against specification functions. That covers the video card, the
form, the nav bar, the carousel's `onUpdate`, the hero grid, `Particle` and the particle
field. The server handler, the field rules and the index rule are pure functions.
Random numbers, the provider's outcome, the environment, the page layout and the canvas
size are parameters.

One file per source file: `server.dfy`, `new_contact.dfy`, `nav.dfy`, `project.dfy`,
`hero.dfy` and `particles.dfy`. `wrappers.dfy` holds `Option` and `Result`.

## Model

| member | source | states |
|---|---|---|
| Server.OrElse | server.js:47-48 | a present, non-empty value wins, otherwise the fallback |
| Server.StatusOr500 | server.js:75 | an absent or zero status code becomes 500, any other is kept |
| Server.EmailRegexTest | server.js:37-38 | the executable scan behind `emailRegex.test`: no whitespace, an '@' after the first character, and a '.' after the character that follows it, with something after the dot (its meaning is proved by the next row) |
| Server.EmailRegexTestMatchesPattern | server.js:37-38 | the executable scanner accepts exactly the strings in the language of `^\S+@\S+\.\S+$` (with ECMAScript's `\s`) |
| Server.ServerPatternNeedsAtAndDot | server.js:37 | an accepted address has no whitespace and contains both '@' and '.' |
| Server.AllPresent | server.js:29 | the negation of the `!name`, `!email`, `!message` test: all three fields are present and non-empty (its use is stated by `Server.Validate`) |
| Server.BadRequest | server.js:30-33 | a refusal is status 400, `success: false`, the given error, and no message, id or details |
| Server.Validate | server.js:29-43 | the presence check comes first; a missing field gives the "required" refusal, a bad address the "Invalid email address" one; it succeeds iff all three fields are truthy and the address matches the pattern |
| Server.TextBody | server.js:69 | the text body reads, piece by piece, as the fixed heading, the name, the e-mail label, the e-mail, the message label and the message, each verbatim and in that order |
| Server.HtmlBody | server.js:51-68 | the HTML body reads, piece by piece, as the fixed markup with the name, the e-mail and the message spliced in verbatim, unescaped, at their places |
| Server.ReadsAsIsJoined | server.js:51-69 | a string that reads as the template's pieces is exactly their concatenation, so the two body contracts pin the bodies completely |
| Server.Subject | server.js:49 | the subject is "New Portfolio Contact from " followed by the name |
| Server.SubjectRoundTrip | server.js:49 | the name can be read back from the subject |
| Server.Compose | server.js:46-70 | sender and recipient fall back to the defaults when unset or empty; the subject names the submitter; reply-to is the submitter's e-mail; the bodies are the two templates |
| Server.Relay | server.js:72-96 | success iff the provider returned without an error (200, "Email sent successfully", its id); a provider error gives its status code (or 500) and its message; a thrown call gives 500 and the fixed text, with details only in development mode |
| Server.HandleContact | server.js:24-98 | the provider is called iff both checks pass, with the composed e-mail; the two refusals are exactly the 400 responses of `BadRequest`, with no other keys; otherwise the response is the provider's outcome relayed |
| Server.Health | server.js:19-21 | the health route always answers 200 with status "ok" and "Server is running" |
| NewContact.Video.constructor | src/pages/NewContact.jsx:69-74 | the video element starts muted and has received no play or pause calls |
| NewContact.Video.Play | src/pages/NewContact.jsx:22 | `play()` is recorded and leaves `muted` alone |
| NewContact.Video.Pause | src/pages/NewContact.jsx:21 | `pause()` is recorded and leaves `muted` alone |
| NewContact.VideoCard.constructor | src/pages/NewContact.jsx:14-15 | not playing and muted, in agreement with the element, which has received no call |
| NewContact.VideoCard.HandleVideoClick | src/pages/NewContact.jsx:19-24 | a playing video is paused and a paused one played, and `isPlaying` flips, so it stays true exactly when the last call was `play()`; mute state untouched |
| NewContact.VideoCard.ToggleMute | src/pages/NewContact.jsx:26-31 | the element's `muted` and `isMuted` both flip and stay equal; playback state and play/pause calls are untouched |
| NewContact.VideoCard.ShowsPlayOverlay | src/pages/NewContact.jsx:78 | the play overlay is shown exactly when the element has received no call yet or its last call was `pause()` |
| NewContact.VideoCard.Icon | src/pages/NewContact.jsx:88 | the crossed-speaker icon is drawn exactly when the element is muted |
| NewContact.ClickVideoTwice | src/pages/NewContact.jsx:19-24 | two clicks restore `isPlaying` and issue one play and one pause, in the right order |
| NewContact.ClientPatternTest | src/pages/NewContact.jsx:121-124 | the executable scan behind the client pattern: no whitespace and an '@' with a character on each side (its meaning is proved by the next row) |
| NewContact.ClientPatternTestMatchesPattern | src/pages/NewContact.jsx:123 | the executable test accepts exactly the language of `^\S+@\S+$` |
| NewContact.ValidateForm | src/pages/NewContact.jsx:112-137 | each empty field gets its "required" message; a non-empty e-mail gets "Invalid email" iff it fails the client pattern |
| NewContact.FormValidIff | src/pages/NewContact.jsx:111-137 | the form has no errors iff all three fields are filled in and the e-mail matches the client pattern |
| NewContact.ServerPatternImpliesClientPattern | src/pages/NewContact.jsx:121-124 | every address the server's pattern accepts, the client's accepts too |
| NewContact.ClientPatternIsWeaker | src/pages/NewContact.jsx:121-124 | "a@b" passes the client pattern and fails the server's, so were the form posted to `/api/contact` the server could refuse an e-mail the form accepted |
| NewContact.ClientValidFormPassesPresence | src/pages/NewContact.jsx:111-137 | were a form the client accepts posted to `/api/contact`, it would never get the missing-field refusal |
| NewContact.ContactForm.constructor | src/pages/NewContact.jsx:17 | the form starts empty, with no alerts, nothing sent and no send in flight |
| NewContact.ContactForm.Input | src/pages/NewContact.jsx:109-137 | typing replaces the values; alerts and sends are untouched |
| NewContact.ContactForm.Submit | src/pages/NewContact.jsx:111 | the rules run on the current values; only an error-free form is handed to the mail widget, which starts one more pending send; values and alerts unchanged |
| NewContact.ContactForm.Settle | src/pages/NewContact.jsx:42-50 | a pending send settles: success alerts "Message sent successfully!" and resets the form; failure alerts "Something went wrong!" and keeps the values |
| NewContact.FillSubmitAndDeliver | src/pages/NewContact.jsx:34-50 | typing an acceptable form, submitting it and a successful send hand exactly those values to the widget, show the success alert and empty the inputs |
| NewContact.ButtonFor | src/pages/NewContact.jsx:139-145 | the button is disabled exactly while submitting, which is exactly when it says "Sending..." |
| Nav.SectionId | src/components/Nav.jsx:25 | `href.substring(1)`: the href is its first character followed by the id |
| Nav.LinkIds | src/components/Nav.jsx:14-25 | one id per nav link, in link order, each the link's href without '#' |
| Nav.LinkIdsAreTheSections | src/components/Nav.jsx:14-20 | the ids are home, about, expertise, projects and contact, in that order |
| Nav.SectionsDistinct | src/components/Nav.jsx:14-20 | no two of the five sections share an id |
| Nav.GetElementById | src/components/Nav.jsx:25 | an element is found iff the id is on the page, with that id and its top |
| Nav.ActiveSectionIsHomeOrLooked | src/components/Nav.jsx:28-36 | the active section is "home" or one of the ids looked up |
| Nav.ActiveSectionIsLastReached | src/components/Nav.jsx:28-36 | with no section reached the result is "home"; otherwise it is the last reached section in link order |
| Nav.ActiveSectionSkipsAbsent | src/components/Nav.jsx:29-30 | a section missing from the page has no effect on the result |
| Nav.NavBar.constructor | src/components/Nav.jsx:5-7 | menu closed, "home" active |
| Nav.NavBar.ToggleMenu | src/components/Nav.jsx:9-11 | the menu's open flag flips; the active link is untouched |
| Nav.NavBar.ClickMobileLink | src/components/Nav.jsx:111 | a mobile link click toggles the menu |
| Nav.ScanSections | src/components/Nav.jsx:25-36 | the lookup and the loop over the sections end with the active section: "home" when none is reached, else the last reached one |
| Nav.NavBar.HandleScroll | src/components/Nav.jsx:24-38 | the active link becomes the active section for threshold `scrollY + 100`, so exactly one mobile link is highlighted; the menu is untouched |
| Nav.NavBar.Highlighted | src/components/Nav.jsx:109 | a link is highlighted exactly when its href is one character followed by the active link |
| Nav.ToggleTwice | src/components/Nav.jsx:9-11 | toggling twice restores the menu |
| Nav.ScrollHighlightsExactlyOne | src/components/Nav.jsx:105-111 | after any scroll exactly one nav link is highlighted |
| Project.ProjectIndex | src/pages/Project.jsx:76-78 | the index is a valid project for a non-empty list; on `[0, 1)` it is the `k` with `k <= progress * n < k + 1`; progress 1 or more gives the last, 0 or less the first |
| Project.ProjectIndexMonotone | src/pages/Project.jsx:76-78 | scrolling further never goes back to an earlier project |
| Project.EachProjectOwnsOneScreen | src/pages/Project.jsx:72-78 | with a pin length of `n * 100%`, project `k` is shown exactly over the `k`-th hundred percent of the scroll |
| Project.Showcase.constructor | src/pages/Project.jsx:194-263 | first render shows the first project's background, title and link |
| Project.Showcase.OnUpdate | src/pages/Project.jsx:75-85 | with both refs set, title and link become those of the project the progress selects; otherwise nothing changes |
| Project.InitialStyles | src/pages/Project.jsx:64-66 | every card is hidden except card 0, which is shown |
| Project.StepTweens | src/pages/Project.jsx:89-118 | the tweens one pass of the outer callback adds (stated by `Project.StepTargets` and `Project.StepTweensSitAtStep`) |
| Project.BuildTimeline | src/pages/Project.jsx:89-118 | the nested loops produce exactly the planned tweens |
| Project.HideOthersFacts | src/pages/Project.jsx:113-117 | the inner loop only hides cards, all at position `i`, and hides exactly the other present cards |
| Project.StepTweensSitAtStep | src/pages/Project.jsx:94-117 | every tween of step `i` is placed at timeline position `i` |
| Project.StepTargets | src/pages/Project.jsx:89-118 | a step with a present card sets the background to that project's colour, shows only that card and hides every other present card; a missing card adds nothing |
| Project.AddStep | src/pages/Project.jsx:89-118 | one pass of the outer callback appends exactly step `i`'s tweens: none for a missing card |
| Project.AddHides | src/pages/Project.jsx:113-117 | the inner loop appends a hide tween for every other present card, in card order |
| Project.PlanInPositionOrder | src/pages/Project.jsx:89-118 | the timeline's tweens of the first `upto` steps sit before `upto` and in nondecreasing position order |
| Project.InitialStylesMatchStepZero | src/pages/Project.jsx:64-117 | with every card present, the initial styles are exactly step 0's targets, so the timeline starts without a jump |
| Hero.GridDim | src/pages/hero/Hero.jsx:57-58 | `ceil(px / 70)`: the fewest 70-pixel cells that cover the length |
| Hero.Added | src/pages/hero/Hero.jsx:83-87 | the new set is the old one plus the index; its size grows by one iff the index was new |
| Hero.Removed | src/pages/hero/Hero.jsx:90-94 | the new set is the old one without the index; its size shrinks by one iff the index was there |
| Hero.AddThenRemove | src/pages/hero/Hero.jsx:83-94 | highlighting a cell and clearing it restores a set that did not hold it |
| Hero.PickCell | src/pages/hero/Hero.jsx:80 | `floor(r * total)` is a cell of the grid, the one whose slot of `[0, total)` holds `r * total` |
| Hero.EveryCellCanBePicked | src/pages/hero/Hero.jsx:80 | every cell is the pick of some random value in `[0, 1)` |
| Hero.HeroGrid.constructor | src/pages/hero/Hero.jsx:42-43 | no columns, no rows, no highlighted cells |
| Hero.HeroGrid.IntervalRunning | src/pages/hero/Hero.jsx:75-77 | the highlight timer runs only while the grid has a cell; `Hero.HeroGrid.Tick` requires it |
| Hero.HeroGrid.HandleResize | src/pages/hero/Hero.jsx:54-60 | nothing when the ref is unset; otherwise the grid covers the element's size; highlights kept |
| Hero.HeroGrid.Tick | src/pages/hero/Hero.jsx:76-87 | only with a non-empty grid: the picked cell is in range and added to the highlights |
| Hero.HeroGrid.Expire | src/pages/hero/Hero.jsx:89-95 | the cell is removed from the highlights |
| Hero.GridCells | src/pages/hero/Hero.jsx:101-113 | one cell per grid position, highlighted iff its index is in the set |
| Hero.LitCellsAreActiveCellsInGrid | src/pages/hero/Hero.jsx:101-113 | the number of lit cells is the number of highlighted indices inside the grid |
| MyParticles.HitsWallIffOutside | src/components/MyParticles.jsx:28-31 | the wall test fires exactly when the disc is not wholly inside the canvas |
| MyParticles.Bounce | src/components/MyParticles.jsx:28-33 | a velocity is reversed on a wall hit and kept otherwise; its size never changes |
| MyParticles.Stepped | src/components/MyParticles.jsx:26-38 | radius and colour are kept, speeds keep their size, velocities turn on a hit, and the position moves by the new velocity |
| MyParticles.Particle.constructor | src/components/MyParticles.jsx:7-14 | the six arguments are stored unchanged |
| MyParticles.Particle.Update | src/components/MyParticles.jsx:26-38 | the fields after `update` are the stepped state of the fields before |
| MyParticles.NearAxisStep | src/components/MyParticles.jsx:28-37 | along one axis, a disc inside or one step outside stays so, and one that is outside comes back inside |
| MyParticles.StepKeepsNearCanvas | src/components/MyParticles.jsx:26-38 | `update` keeps a particle inside the canvas or at most one step past a wall |
| MyParticles.FramesStayNearCanvas | src/components/MyParticles.jsx:26-66 | over any number of frames a particle keeps its radius, colour and speeds and stays within one step of the canvas |
| MyParticles.Spawn | src/components/MyParticles.jsx:85-91 | the particle built from one set of random draws (stated by `MyParticles.SpawnShape` and `MyParticles.SpawnInside`) |
| MyParticles.CenteredScaled | src/components/MyParticles.jsx:88-89 | `(r - 0.5) * speed` is at most half the speed in size |
| MyParticles.SpawnCoordInside | src/components/MyParticles.jsx:86-87 | on an axis at least one diameter long, a spawned coordinate puts the disc wholly inside |
| MyParticles.SpawnShape | src/components/MyParticles.jsx:85-91 | a spawned particle has radius in `[1, 3)`, the given colour, and speeds at most half of `speed` |
| MyParticles.SpawnInside | src/components/MyParticles.jsx:85-87 | a spawned particle starts wholly inside along every axis at least one diameter long, so inside a canvas at least 6 by 6 |
| MyParticles.SpawnedParticlesStayNearCanvas | src/components/MyParticles.jsx:84-92 | a particle spawned on a canvas at least 6 by 6 never strays more than half `speed` past a wall until the next resize |
| MyParticles.ParticleField.constructor | src/components/MyParticles.jsx:48-50 | the props are stored and the particle array is empty |
| MyParticles.ParticleField.InitializeParticles | src/components/MyParticles.jsx:79-92 | the array is emptied and then holds exactly `count` new, distinct particles, particle `i` spawned from draw `i` on the current canvas size |
| MyParticles.ParticleField.HandleResize | src/components/MyParticles.jsx:96-102 | the canvas takes the client size before the particles are rebuilt, so they are spawned on the new size |
| MyParticles.ParticleField.AnimateFrame | src/components/MyParticles.jsx:63-66 | every particle is stepped once on the current canvas, and if all were near the canvas they all still are |

## Left out

- The mail providers (the Resend `emails.send` call and the EmailJS `sendForm` call) are not modelled. Their outcomes are inputs: `Server.ProviderResult` and the `delivered` flag of `ContactForm.Settle`.
- The Express wiring is left out: the CORS and JSON middleware, the port, `listen`, the API-key log line and `console` output.
- Request bodies whose fields are not strings (numbers, arrays, objects) are not modelled. A field is a present string or absent, and "" counts as missing, as JavaScript truthiness has it.
- Server.Relay: a provider status code is copied as given. Express's own refusal of codes outside 100-999 is not modelled.
- Server.Relay: the success `id` is taken as `data.id`, as the handler reads it. Whatever shape the provider's SDK really returns is not modelled.
- Strings are sequences of code points, not UTF-16 code units. The `\s` class is the ECMAScript WhiteSpace and LineTerminator set.
- The browser's own `type="email"` check on the input is not modelled, nor `preventDefault` and the DOM form object.
- NewContact.ContactForm.Submit: react-hook-form's `isSubmitting` is not tied to the widget's promise. `ButtonFor` takes the flag as an input.
- NewContact.ContactForm.Settle: `reset()` clears the form even if the user edited it while the send was in flight; the model resets to the empty form as well.
- A video that plays to its end leaves `isPlaying` true; ending is not an event in the model.
- Timers are not modelled: Hero's resize debounce (100 ms), the 500 ms interval and the 800 ms timeout, and `requestAnimationFrame`. Each firing is a method call (`Tick`, `Expire`, `AnimateFrame`) that the caller sequences.
- Hero.HeroGrid.Expire: when the same cell is picked twice within 800 ms, the first timeout clears it early. The model allows any interleaving of calls but proves nothing about timing.
- `Math.random()` results are parameters in `[0, 1)` (the `r` of `Tick`, the `Draw`s of the particle field).
- Floating-point numbers are reals: rounding in `progress * length`, the particle coordinates and `ceil` is not modelled.
- MyParticles.ParticleField.InitializeParticles: `count` is a natural number. A fractional or negative prop, which JavaScript's loop would round up or treat as zero, is not modelled.
- The canvas and element refs are assumed mounted in the particle field; Hero's unset ref is modelled (`HandleResize(None)`).
- Everything visual is left out: GSAP/ScrollTrigger interpolation, scrub and pinning, Lenis smooth scroll, canvas drawing (`Particle.draw`, `clearRect`), injected CSS, icons and the page markup. The HTML e-mail markup is modelled only as a fixed template with verbatim fields.
- Static presentational files with no logic are not part of this model: `src/pages/AboutMe.jsx`, `src/pages/Expertise.jsx`, `src/pages/Footer.jsx`, `src/Full.jsx`, `src/main.jsx`, `vite.config.js`.
- Event-listener registration and removal, and effects re-running when props change, are not modelled.
