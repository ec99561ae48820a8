# Verified model of the portfolio's canvas effects and easter eggs

This project models the logic under three browser scripts of a personal
portfolio site:

- `easter-eggs.js`: the global page listeners. These are the Konami-code
  matcher, the rapid-click counter with its 2000 ms quiet timer and the
  held-`S` secret detector. The file also holds the matrix-rain overlay the
  Konami code starts, the click particle burst and the rainbow-mode schedule.
- `canvas-effects.js`: the particle network. Particles drift, are pushed
  away by the pointer and bounce off the canvas edges. Pairs closer than
  150 px are joined by a line.
- `wave-constellation.js`: the starfield. Stars twinkle, drift away from
  the pointer and wrap around the edges. Constellation lines join near
  stars, at most four per star as first end. Shooting stars and lightning
  bolts spawn under a cap and are pruned by an order-preserving filter.

Each JavaScript class whose methods update fields is a Dafny `class` with
the same fields. Each event listener is a class too: its mutable variables
are fields, a ghost history records the events it has seen, and `Valid()`
ties the fields to a pure replay function of that history. Lemmas about the
replay functions state what the listener guarantees over any event sequence.
Loops become `while`/`for` loops with invariants. Each loop is proved against
a specification function (`RainAfter`, `LinksUpTo`, `Constellation`, `Select`).

Four things are not computed but passed in:

- Every `Math.random()` draw is a parameter in [0, 1).
- `Math.sqrt` is replaced by a given distance `d` with `d >= 0` and `d * d`
  equal to the squared distance. Threshold tests compare squared distances;
  lemmas show this matches the source's test on `d`.
- `cos`/`sin` of the lightning walk and of the shooting-star heading come
  from an oracle `polar(angle, length)`.
- `atan2` in the particle push is the direction vector divided by its length.

Coordinates are exact reals.

Modules: `Common` (`common.dfy`), `EasterEggs` (`easter_eggs.dfy`),
`CanvasEffects` (`canvas_effects.dfy`), `WaveConstellation`
(`wave_constellation.dfy`).

## Model

| member | source | states |
|---|---|---|
| Common.PointerOnEdgeIsAbsent | assets/js/canvas-effects.js:43 | The `mouse.x && mouse.y` guard treats a null coordinate and a coordinate equal to 0 as an absent pointer; two non-zero coordinates count as present |
| Common.RootBelowIff | assets/js/canvas-effects.js:46-48 | For a distance that is the square root of the squared distance, `distance < limit` holds exactly when the squared distance is below `limit` squared |
| Common.SelectKeepsFlaggedInOrder | assets/js/wave-constellation.js:490-494 | `Array.prototype.filter` keeps an element iff its flag is set, keeps survivors in their original order, and keeps the whole list iff every flag is set |
| Common.SelectKeepsDistinct | assets/js/wave-constellation.js:490-494 | Filtering a list without repeated entities gives a list without repeated entities |
| Common.Scale | assets/js/canvas-effects.js:34-35 | `Math.random() * extent` lies in [0, extent] |
| EasterEggs.KonamiStep | assets/js/easter-eggs.js:89-98 | A keydown always leaves the index below 10 |
| EasterEggs.KonamiIndexIsMatchedPrefix | assets/js/easter-eggs.js:88-99 | After any key stream, `konamiIndex` equals the number of most recent keys, and those keys spell the first `konamiIndex` keys of the code |
| EasterEggs.KonamiFiresOnlyOnFullCode | assets/js/easter-eggs.js:89-95 | The success handler runs only on a key that ends the full ten-key code |
| EasterEggs.KonamiCodeAdvances | assets/js/easter-eggs.js:89-90 | From index 0, the first k keys of the code move the index to k |
| EasterEggs.KonamiNextKeyAdvances | assets/js/easter-eggs.js:89-92 | The matching key at index k - 1 moves the index to k without firing, for k below 10 |
| EasterEggs.KonamiCodeSilentBeforeLastKey | assets/js/easter-eggs.js:89-95 | From index 0, none of the first nine keys of the code fires |
| EasterEggs.KonamiCodeFiresOnce | assets/js/easter-eggs.js:89-95 | Typing the code from index 0 fires exactly once, on the tenth key, and resets the index to 0 |
| EasterEggs.KonamiStaysAtZero | assets/js/easter-eggs.js:96-98 | At index 0, keys other than the first key of the code keep the index at 0 and never fire |
| EasterEggs.ExtraUpNeverCompletes | assets/js/easter-eggs.js:89-98 | A mismatching key is not re-tested against the first key, so Up, Up, Up, Down, Down, Left, Right, Left, Right, b, a never fires |
| EasterEggs.KonamiIsCaseSensitive | assets/js/easter-eggs.js:20-24 | Matching is case-sensitive: `B` instead of `b` resets the index, and `A` instead of `a` does not fire |
| EasterEggs.KonamiListener.constructor | assets/js/easter-eggs.js:25 | The listener starts at index 0 with no keys seen |
| EasterEggs.KonamiListener.KeyDown | assets/js/easter-eggs.js:88-99 | One keydown: the index is the replay of the whole key history and stays below 10; success is reported exactly when the replay fires; a mismatching key resets the index to 0 without firing |
| EasterEggs.RainbowConsumesTenClicks | assets/js/easter-eggs.js:43-55 | The quiet timer is pending exactly while clicks are counted, and every rainbow used up at least ten clicks, so rainbows are at most a tenth of all clicks |
| EasterEggs.ClickBurst | assets/js/easter-eggs.js:47-54 | A burst of n clicks counts to n without triggering; the quiet period after it triggers rainbow mode iff n >= 10 and returns to the idle state either way |
| EasterEggs.ClickTracker.constructor | assets/js/easter-eggs.js:28-29 | No clicks counted and no timer pending |
| EasterEggs.ClickTracker.OnClick | assets/js/easter-eggs.js:43-49 | A click spawns a 15-particle burst at the click point, each particle with its palette colour, its even share of the turn and its reach; it increments `clickCount` and leaves the quiet timer pending; it never triggers rainbow mode itself |
| EasterEggs.ClickTracker.TimerElapsed | assets/js/easter-eggs.js:49-54 | The timer callback triggers rainbow mode iff the timer was pending with at least ten clicks; the count returns to 0 and the timer is no longer pending |
| EasterEggs.ToLowerCase | assets/js/easter-eggs.js:217 | Lower-casing keeps the length, leaves no capital A-Z, leaves every other character alone, and sends each capital to the same letter in lower case |
| EasterEggs.ToLowerCaseIdempotent | assets/js/easter-eggs.js:217 | Lower-casing twice is lower-casing once, so `s` and `S` are one key |
| EasterEggs.SecretKeyIgnoresCase | assets/js/easter-eggs.js:216-231 | The secret key test accepts exactly `s` and `S` |
| EasterEggs.SecretShownOncePerPress | assets/js/easter-eggs.js:216-231 | The secret shows at most once per press of S: each show except the current press's is matched by an earlier release of S |
| EasterEggs.SecretShowLeavesSpent | assets/js/easter-eggs.js:216-231 | The frame that shows the secret leaves the timer handle spent, not armed |
| EasterEggs.SecretShownOncePerHold | assets/js/easter-eggs.js:216-231 | Once shown, the secret does not show again on any later frame until S is released, however many events or timer ticks follow |
| EasterEggs.SecretNeedsHeldKey | assets/js/easter-eggs.js:216-231 | The timer handle is set only while S is held, so the secret shows only while S is held |
| EasterEggs.ReleaseCancelsSecret | assets/js/easter-eggs.js:226-230 | Releasing S clears the pending timeout, so the next timer event shows nothing |
| EasterEggs.SecretKeyListener.constructor | assets/js/easter-eggs.js:214 | The handle starts null |
| EasterEggs.SecretKeyListener.OnKeyDown | assets/js/easter-eggs.js:216-224 | S arms the 3000 ms timer only when no handle is set, so auto-repeat neither restarts nor re-arms it |
| EasterEggs.SecretKeyListener.OnKeyUp | assets/js/easter-eggs.js:226-231 | Releasing S clears the timer and nulls the handle; other keys change nothing |
| EasterEggs.SecretKeyListener.TimerElapsed | assets/js/easter-eggs.js:219-221 | The callback shows the secret iff a timer was pending; the handle stays set afterwards |
| EasterEggs.RainDrop | assets/js/easter-eggs.js:148-151 | A drop that has not passed the bottom edge falls one row; otherwise it falls one row or restarts at row 1 |
| EasterEggs.RainDropsStayOnGrid | assets/js/easter-eggs.js:131-152 | Starting from all 1s, after any number of frames every drop is at least 1 and at most the frame count plus 1 |
| EasterEggs.DrawRainFrame | assets/js/easter-eggs.js:144-152 | One frame updates the `drops` array in place to the frame's specification over its old contents |
| EasterEggs.CreateMatrixRain | assets/js/easter-eggs.js:121-163 | `floor(width / 14)` drops start at 1; exactly 200 frames are drawn before the canvas is removed; every drop is then at least 1 |
| EasterEggs.PaletteIndex | assets/js/easter-eggs.js:66 | `Math.floor(Math.random() * colors.length)` is always a valid index into the six colours |
| EasterEggs.CreateParticleBurst | assets/js/easter-eggs.js:58-78 | Fifteen particles at the click point, evenly spaced in angle, each with a palette colour and a travel of `velocity * 50` px in [100, 200) |
| EasterEggs.TriggerRainbowMode | assets/js/easter-eggs.js:174-194 | Box k lights up at 100·k ms and goes dark 2000 ms later; five fireworks bursts follow at 0, 200, ..., 800 ms, burst k at the viewport point its x and y draws pick |
| EasterEggs.ScheduleHighlights | assets/js/easter-eggs.js:177-184 | One highlight and one un-highlight timeout per box, at 100·k ms and 2000 ms after that |
| EasterEggs.ScheduleFireworks | assets/js/easter-eggs.js:187-193 | Five bursts, 200 ms apart; burst k is at the point its x and y draws pick, scaled to the viewport |
| CanvasEffects.StartVelocity | assets/js/canvas-effects.js:36-37 | A start velocity component lies in [-0.25, 0.25) |
| CanvasEffects.Jitter | assets/js/canvas-effects.js:65-66 | The per-frame jitter lies in [-0.05, 0.05) |
| CanvasEffects.PointerForce | assets/js/canvas-effects.js:49 | Inside the 200 px radius the push strength lies in (0, 1], and is 1 on the pointer |
| CanvasEffects.PointerForceDecreases | assets/js/canvas-effects.js:49 | A nearer pointer pushes strictly harder |
| CanvasEffects.Heading | assets/js/canvas-effects.js:50-52 | The `atan2` direction scaled by the distance gives the offset back |
| CanvasEffects.PushedVelocity | assets/js/canvas-effects.js:43-53 | The velocity is unchanged unless the pointer is present and nearer than 200 px; inside, the change is parallel to the offset to the pointer, points away from it, and has length `PointerForce(d) * 0.5`; on the pointer itself the push is 0.5 along -x; the change never points towards the pointer |
| CanvasEffects.Bounce | assets/js/canvas-effects.js:69-76 | A coordinate inside [0, limit] keeps its value and velocity; one outside is clamped to the nearer edge and its velocity is negated; the result is always on the canvas |
| CanvasEffects.Step | assets/js/canvas-effects.js:41-77 | One update always ends on the canvas; away from the pointer and the edges the particle moves by its undamped velocity, which is then damped by 0.99 and jittered |
| CanvasEffects.Particle.constructor | assets/js/canvas-effects.js:26-31 | `reset`, then a second draw of the position; the particle starts on the canvas with radius 2 |
| CanvasEffects.Particle.Reset | assets/js/canvas-effects.js:33-39 | A position scaled over the canvas, start velocities from their draws, radius 2 |
| CanvasEffects.Particle.Repel | assets/js/canvas-effects.js:43-53 | The pointer section changes only the velocity, exactly as `PushedVelocity` |
| CanvasEffects.Particle.Update | assets/js/canvas-effects.js:41-77 | The new state is one `Step` of the old one: push, move, damp, jitter, bounce, in the source's order |
| CanvasEffects.LinkedIffNear | assets/js/canvas-effects.js:153-155 | The squared-distance test agrees with `distance < 150` |
| CanvasEffects.LineOpacityAt | assets/js/canvas-effects.js:156 | The opacity lies in [0, 0.15]: 0.15 for coincident particles, positive for every drawn line (below 150 px), and 0 at exactly 150 px |
| CanvasEffects.LineOpacityFalls | assets/js/canvas-effects.js:156 | Opacity falls strictly as the distance grows over [0, 150] |
| CanvasEffects.RowLinksSpec | assets/js/canvas-effects.js:150-155 | Row i links exactly the j > i closer than 150 px, in increasing j |
| CanvasEffects.LinksUpToSpec | assets/js/canvas-effects.js:149-155 | The first rows link exactly the pairs i < j with i among those rows that are closer than 150 px, in loop order |
| CanvasEffects.AllPairsLinkedOnce | assets/js/canvas-effects.js:149-155 | Every unordered pair i < j is linked iff its particles are closer than 150 px, and no pair is linked twice |
| CanvasEffects.ParticleNetwork.constructor | assets/js/canvas-effects.js:88-105 | The network starts with 100 particles on the canvas and no pointer |
| CanvasEffects.ParticleNetwork.CreateParticles | assets/js/canvas-effects.js:112-117 | The list is replaced by exactly 100 fresh, distinct particles placed by their draws, with their start velocities and radius 2, all on the canvas |
| CanvasEffects.ParticleNetwork.Resize | assets/js/canvas-effects.js:107-123 | The canvas takes the viewport size and the particle list is rebuilt with 100 fresh particles |
| CanvasEffects.ParticleNetwork.UpdateParticles | assets/js/canvas-effects.js:190-193 | Each particle takes one `Step` from its own old state and all stay on the canvas |
| CanvasEffects.ParticleNetwork.PointerMove | assets/js/canvas-effects.js:125-140 | The pointer record takes the event's coordinates; nothing else changes |
| CanvasEffects.ParticleNetwork.PointerLeave | assets/js/canvas-effects.js:130-145 | Both coordinates become null, so the pointer is absent |
| CanvasEffects.ParticleNetwork.ConnectParticles | assets/js/canvas-effects.js:148-166 | The lines drawn are the pair specification over the current positions (see `AllPairsLinkedOnce`) |
| CanvasEffects.ParticleNetwork.ConnectFrom | assets/js/canvas-effects.js:150-164 | The inner loop draws row i of the pair specification |
| WaveConstellation.Twinkle | assets/js/wave-constellation.js:77-80 | Opacity moves one step in the current direction; the direction turns round exactly when the new opacity is at least 1 or at most 0.3 |
| WaveConstellation.TwinkleStaysInBand | assets/js/wave-constellation.js:77-80 | The twinkle band is preserved: above 1 opacity is falling, below 0.3 it is rising, and it stays in [0.3 - speed, 1 + speed] |
| WaveConstellation.FreshStarInBand | assets/js/wave-constellation.js:68-70 | A fresh star's opacity in [0.3, 1) starts inside the band, whichever direction it draws |
| WaveConstellation.StarForce | assets/js/wave-constellation.js:89 | Inside the 150 px radius the push strength lies in (0, 1] |
| WaveConstellation.StarPushAsWritten | assets/js/wave-constellation.js:83-93 | The push as written divides by the distance; it is undefined (NaN) exactly when the star is on the pointer, zero outside the radius, and inside it is `(dx, dy) / d * StarForce(d) * 0.3` |
| WaveConstellation.StarPush | assets/js/wave-constellation.js:83-93 | The push with a zero distance handled: none on the pointer or outside the radius, elsewhere the push as written, `(dx, dy) / d * StarForce(d) * 0.3` inside the radius |
| WaveConstellation.StarPushPointsAway | assets/js/wave-constellation.js:84-91 | The push never has the opposite sign to the offset from the pointer, and inside the radius it has exactly that sign on each axis where the offset is non-zero, so the star is pushed away |
| WaveConstellation.Wrap | assets/js/wave-constellation.js:104-107 | A coordinate inside the canvas is kept, one below 0 jumps to the far edge, one beyond it jumps to 0; the result is always on the canvas |
| WaveConstellation.StarDrift | assets/js/wave-constellation.js:83-107 | The drifted star is on the canvas; with no push, velocity is applied before it is damped by 0.95 |
| WaveConstellation.PulsedSize | assets/js/wave-constellation.js:110 | The size equals the base size at full opacity and is never below 0.8 of it |
| WaveConstellation.PulsedSizeGrows | assets/js/wave-constellation.js:110 | A higher opacity gives a strictly larger star |
| WaveConstellation.Star.constructor | assets/js/wave-constellation.js:55-61 | `reset`, then a second draw of the position; the star starts at rest, inside its twinkle band |
| WaveConstellation.Star.Reset | assets/js/wave-constellation.js:63-73 | Base size in [1, 3.5), opacity in [0.3, 1), direction by a coin, twinkle speed in [0.01, 0.03), no velocity, inside the band |
| WaveConstellation.Star.TwinkleStep | assets/js/wave-constellation.js:77-80 | Only opacity and direction change, as `Twinkle`, and the band is kept |
| WaveConstellation.Star.Repel | assets/js/wave-constellation.js:83-93 | Only the velocity changes, by the corrected push |
| WaveConstellation.Star.Move | assets/js/wave-constellation.js:96-107 | The position advances by the velocity and wraps; the velocity is then damped by 0.95 |
| WaveConstellation.Star.Update | assets/js/wave-constellation.js:75-111 | One update: the twinkle step, the drift (push, move, damp, wrap) and the size pulse; the star stays on the canvas and inside its band |
| WaveConstellation.ShootingStar.constructor | assets/js/wave-constellation.js:156-159 | A fresh shooting star on the top edge or the upper half of the left edge, fully opaque, life 0 |
| WaveConstellation.ShootingStar.Reset | assets/js/wave-constellation.js:161-179 | The entry point by a coin, length in [60, 100), speed in [3, 6), heading 45 degrees give or take 0.25 rad, a life span in [60, 100) |
| WaveConstellation.ShootingStar.Update | assets/js/wave-constellation.js:181-187 | One step along the velocity, life + 1, opacity 1 - life/maxLife, velocity, life span and shape unchanged; alive iff life < maxLife, which is iff the opacity is positive |
| WaveConstellation.FadeIsPositiveWhileAlive | assets/js/wave-constellation.js:185-186 | The fade `1 - life/maxLife` is positive exactly while life < maxLife |
| WaveConstellation.ClampAngle | assets/js/wave-constellation.js:264 | The heading is clamped to [pi/4, 3pi/4] and left alone inside it |
| WaveConstellation.StepLength | assets/js/wave-constellation.js:266 | A step length lies in [10.5, 19.5) |
| WaveConstellation.BoltGrows | assets/js/wave-constellation.js:259-273 | One more step of the walk, taken from its draws and chained to the previous segment, keeps the walk well formed |
| WaveConstellation.FlashOpacity | assets/js/wave-constellation.js:283-291 | The flash schedule: 1 for life < 3, 0.3 for 3..5, 0.8 for 6..8, then a fade that is positive exactly while life < 15 |
| WaveConstellation.Lightning.constructor | assets/js/wave-constellation.js:216-224 | A fresh bolt is alive, fully opaque, and has a generated main bolt starting on the top edge and branches of at most 10 segments |
| WaveConstellation.Lightning.GenerateBolt | assets/js/wave-constellation.js:254-278 | At most `maxSegments` segments, each starting where the previous ended, each heading clamped to [pi/4, 3pi/4]; the walk stops right after the first segment ending below the canvas |
| WaveConstellation.Lightning.Generate | assets/js/wave-constellation.js:226-252 | The main bolt starts on the top edge; branches start only at segments 0, 5, 10, ..., exactly where the draw is below 0.3, at that segment's start point, with at most 10 segments each |
| WaveConstellation.Lightning.GenerateBranches | assets/js/wave-constellation.js:238-251 | The branch loop: one branch per fifth segment whose draw is below 0.3, in increasing order of segment |
| WaveConstellation.Lightning.Update | assets/js/wave-constellation.js:280-293 | Life + 1, opacity from the flash schedule, alive iff life < 15, which is iff the opacity is positive; the shape is unchanged |
| WaveConstellation.NearIffCloser | assets/js/wave-constellation.js:436-440 | The squared-distance test agrees with `distance < 250` |
| WaveConstellation.CandidatesSpec | assets/js/wave-constellation.js:433-440 | Before the cap, row i holds exactly the near stars j > i, in increasing j |
| WaveConstellation.CandidatesPrefix | assets/js/wave-constellation.js:434 | Breaking out of the inner loop early yields a prefix of the full candidate row |
| WaveConstellation.CappedRowSpec | assets/js/wave-constellation.js:429-477 | Star i starts at most four lines, each to a near star j > i; they go to the first near stars in index order; with fewer than four, every near star j > i gets one |
| WaveConstellation.CappedRowTakesNearestFirst | assets/js/wave-constellation.js:433-477 | A near star skipped by the cap comes after every star that got a line |
| WaveConstellation.ConstellationSpec | assets/js/wave-constellation.js:429-481 | The lines drawn are exactly the capped rows of all stars |
| WaveConstellation.StarMayHaveMoreThanFourLines | assets/js/wave-constellation.js:430-434 | The cap counts only lines a star starts: with six coincident stars, star 4 ends four lines and starts a fifth |
| WaveConstellation.AgeShootingStars | assets/js/wave-constellation.js:490-494 | Every shooting star in the list is updated once: one velocity step, life + 1, faded opacity, and length, speed, angle, velocity and life span unchanged; its flag says whether it is alive |
| WaveConstellation.AgeBolts | assets/js/wave-constellation.js:504-508 | Every bolt in the list is updated once: life + 1, opacity from the flash schedule, and its segments and branches unchanged; its flag says whether it is younger than 15 frames |
| WaveConstellation.SelectKeepsLiveShootingStars | assets/js/wave-constellation.js:490-494 | The filtered list holds exactly the live shooting stars, in order, each once, all valid |
| WaveConstellation.SelectKeepsLiveBolts | assets/js/wave-constellation.js:504-508 | The filtered list holds exactly the live bolts, in order, each once, all valid |
| WaveConstellation.WaveConstellation.constructor | assets/js/wave-constellation.js:333-353 | The scene starts with 250 valid stars, no transients and no pointer |
| WaveConstellation.WaveConstellation.CreateStars | assets/js/wave-constellation.js:360-365 | The star list is replaced by exactly 250 fresh, distinct stars placed by their draws, on the canvas and inside their bands |
| WaveConstellation.WaveConstellation.Resize | assets/js/wave-constellation.js:355-371 | The canvas takes the viewport size and the stars are rebuilt; the transient lists are kept |
| WaveConstellation.WaveConstellation.PointerMove | assets/js/wave-constellation.js:373-388 | The pointer record takes the event's coordinates; nothing else changes |
| WaveConstellation.WaveConstellation.PointerLeave | assets/js/wave-constellation.js:378-393 | Both coordinates become null, so the pointer is absent |
| WaveConstellation.WaveConstellation.UpdateStars | assets/js/wave-constellation.js:520-523 | Each star takes its own twinkle step and drift from its old state, keeps its twinkle speed and base size and takes the size pulsed by its new opacity; all stay on the canvas and inside their bands |
| WaveConstellation.WaveConstellation.DrawConstellations | assets/js/wave-constellation.js:429-481 | The lines drawn are the capped rows over the current positions, and every line joins stars i < j closer than 250 px |
| WaveConstellation.WaveConstellation.ConstellationRow | assets/js/wave-constellation.js:431-479 | The inner loop with its `connections` counter draws the capped row of star i |
| WaveConstellation.WaveConstellation.SpawnShootingStar | assets/js/wave-constellation.js:485-487 | A fresh shooting star joins the end of the list iff the draw is below 0.0005 and fewer than 3 are alive, so the cap holds |
| WaveConstellation.WaveConstellation.SpawnBolt | assets/js/wave-constellation.js:499-501 | A fresh bolt joins the end of the list iff the draw is below 0.002 and fewer than 2 are alive, so the cap holds |
| WaveConstellation.WaveConstellation.UpdateShootingStars | assets/js/wave-constellation.js:483-495 | Spawn under the cap, update each shooting star once (one step, life + 1, faded opacity, shape unchanged), and keep exactly the live ones in their order; the cap of 3 holds |
| WaveConstellation.WaveConstellation.AgeShootingStarsAndPrune | assets/js/wave-constellation.js:490-494 | The filter updates each star once (one step, life + 1, faded opacity, shape unchanged) and keeps exactly those still alive, in order |
| WaveConstellation.WaveConstellation.UpdateLightning | assets/js/wave-constellation.js:497-509 | Spawn under the cap, update each bolt once (life + 1, opacity from the flash schedule, segments and branches unchanged), and keep exactly the live ones in their order; the cap of 2 holds |
| WaveConstellation.WaveConstellation.AgeBoltsAndPrune | assets/js/wave-constellation.js:504-508 | The filter updates each bolt once (life + 1, opacity from the flash schedule, segments and branches unchanged) and keeps exactly those still alive, in order |

## Left out

- Canvas drawing is not modelled: every `ctx` call, gradients, colour strings, `Particle.draw`, `Star.draw`, `ShootingStar.draw`, `Lightning.draw`, `drawMouseEffect` and the `drawWaves` sine bands. This is visual output only. The pixel positions of the matrix-rain glyphs and the character drawn are not modelled either.
- The opacity, width and hover colour of a constellation line are not modelled. Only which pairs get a line is.
- DOM and page wiring is not modelled: `init`, listener registration, element creation and removal, the injected CSS, `setupProjectHoverEffects`, the empty `setupSectionAnimations`, the `dblclick` listener on the banner, the Konami message box, `showSecretMessage`'s box and console output. These are host-environment plumbing. The double-click path reaches `TriggerRainbowMode`, which is modelled.
- `requestAnimationFrame`, the `animate` loops and `destroy` are not modelled. One frame's work is modelled by `UpdateParticles`, `ConnectParticles`, `UpdateStars`, `DrawConstellations`, `UpdateShootingStars` and `UpdateLightning`.
- `setTimeout` and `clearTimeout` are replaced by explicit timer events. The 2000 ms and 3000 ms delays are the host's business. `TriggerRainbowMode` returns the timeouts it would set, with their delays, instead of running them.
- The removal of burst particles 1000 ms after they are created is not modelled. It is a DOM timer.
- Floating point, including NaN, rounding and overflow, is not modelled. Coordinates are exact reals. The one NaN the source can produce is listed under Findings.
- `Math.sqrt`, `atan2`, `cos` and `sin` are not computed. Distances are given with their squares, and directions come from a `polar` oracle. As a result, the model does not check that the oracle returns a vector of the given length.
- `Math.random` is not computed. Every draw is a parameter in [0, 1).
- EasterEggs.ToLowerCase: only ASCII letters are case-mapped. Other Unicode case mappings are not modelled.
- CanvasEffects.Heading: does not state that the direction has unit length. It states only that scaling it by the distance gives the offset back, because `cos(atan2(dy, dx))` is not computed.
- EasterEggs.CreateParticleBurst: the direction is stated as a fraction of a full turn, and the `--tx`/`--ty` offsets (`cos`/`sin` of that angle times `velocity * 50`) are not computed.
- WaveConstellation.Lightning.Generate: each branch starts at the START point of segment i, as the code does (`segments[i].x`, `segments[i].y`), not at its end point.
- WaveConstellation.Star.Update, WaveConstellation.Star.Repel and WaveConstellation.StarDrift: all three use the corrected push of the finding below, so a star exactly on the pointer is not pushed. The as-written push is `WaveConstellation.StarPushAsWritten`.

## Findings

| source | as written | input that shows it | evidently intended | confidence | as-written member | corrected member |
|---|---|---|---|---|---|---|
| assets/js/wave-constellation.js:88-91 | The push divides the offset by the distance whenever the distance is below 150, including a distance of exactly 0 | A pointer present at exactly the star's position (for example a star at (10, 10) and a `mousemove` to clientX 10, clientY 10): `dx / distance` is `0 / 0`, so vx and vy become NaN and the star disappears until the next resize rebuilds the stars. The input needs the pointer and the star to coincide exactly, so it is very unlikely in practice | A star under the pointer is not pushed | not executed | WaveConstellation.StarPushAsWritten | WaveConstellation.StarPush |
