# Balloon patrol, orbit camera and coin economy — a Dafny model

This project models the discrete logic of five Unity scripts from a demo scene:

- **`BalloonRandomPatrol`**: a balloon flies leg after leg between waypoints. On arrival it picks a
  random new waypoint, drawing again while the draw repeats the current one.
- **`CameraOrbitOscillate`**: an orbiting camera has a target zoom radius. Mouse scroll and a
  two-finger pinch move that radius, and it is then clamped to `[minDistance, maxDistance]`. A
  current radius eases towards the target every frame.
- **`CropManager`**: buys crops with coins from the persistent store and plants them in a
  row-major grid.
- **`CoinGranter`**: adds coins to the same stored balance.
- **`CoinUI`**: shows that balance and redraws its label only when the balance changed.

The three coin scripts share one entry, `"PlayerCoins"`, of Unity's `PlayerPrefs` key-value
store. The store is modelled once, as a class holding a `map<string, Int32>` (`Prefs`).

Each script is a class whose methods change its fields, as the C# components do. A random draw,
the clock (`Time.time`, `Time.deltaTime`), the input devices and the host-computed position of
the balloon are parameters.

- `Random.Range` is a `RandomSource` object holding a finite stream of raw draws. Each call takes
  the next draw and reduces it into range.
- `PickNewDestination` requires that some draw in the stream gives an index other than the
  current one (`Avoids`). Its loop then ends. The method is proved to accept exactly the first
  such draw (`FirstAvoiding`).
- Two lemmas show that this requirement cannot be dropped:
  - with one waypoint that is already the target, no stream satisfies it;
  - with two or more waypoints, a generator that keeps repeating the current index never
    satisfies it.
- Only the initial index `-1` and the `points.Length < 2` guard of `Update` keep the loop from
  spinning for ever.

C# `int` arithmetic is unchecked. `Wrap32` writes out its wrap-around, and the stored balances
have the type `Int32`. Float quantities are Dafny `real`s, without rounding.

Modules: `Geometry` (`Vector3`), `Optional`, `Prefs` (the store and `Int32`), `Patrol`, `Orbit`,
`Crops`, `Granter`, `CoinDisplay`.

## Where the code is followed

The model does what the code does, including where one might expect
otherwise:

- **Zero-length leg.** The arrival test is `distCovered / journeyLength >= 1` in IEEE arithmetic.
  - A positive distance over zero length gives +Infinity, so the leg counts as finished.
  - A zero distance gives NaN, so it does not: in the frame where the leg starts, it is not over.
  - There is no zero-length shortcut (`JourneyComplete`).
- **Empty waypoint array.** `Start` with no waypoints does nothing; it is not an error.
- **The redraw loop.** It runs whatever the number of waypoints. It is not restricted to two or
  more.
- **`reachThreshold`.** It is declared but never read. Arrival depends on the fraction alone.
- **Zoom smoothing.** It uses `Mathf.Lerp`, which clamps its factor to `[0, 1]`, so the current
  radius never overshoots the target.
- **Camera `Start`.** It sets both radii to the initial offset length without clamping. They lie
  in `[minDistance, maxDistance]` only once they have been brought there.

Unity's `Mathf.Clamp`, `Mathf.Clamp01` and `Mathf.Lerp` are modelled as Unity documents them.
Their source is not part of this model.

## Model

| member | source | states |
|---|---|---|
| `Patrol.RandomSource.Range` | Assets/BalloonRandomPatrol.cs:80 | `Random.Range(lo, hi)` returns a value in `[lo, hi)` and consumes exactly one draw |
| `Patrol.FirstAvoiding` | Assets/BalloonRandomPatrol.cs:80-89 | the draw the rejection loop accepts is the first whose index differs from the current target; every earlier draw repeats it |
| `Patrol.FirstPickNeverRedraws` | Assets/BalloonRandomPatrol.cs:27 | starting from index -1, the first pick accepts the very first draw and never redraws |
| `Patrol.SingleWaypointNeverAvoids` | Assets/BalloonRandomPatrol.cs:84-87 | with one waypoint already targeted, no generator yields another index: the loop would never end |
| `Patrol.RepeatingGeneratorNeverAvoids` | Assets/BalloonRandomPatrol.cs:84-87 | with any number of waypoints, a generator repeating the current index keeps the loop spinning, so termination rests on the generator |
| `Patrol.ArrivalTime` | Assets/BalloonRandomPatrol.cs:46-49 | on a leg of positive length, `fractionOfJourney >= 1` holds exactly when the distance covered reaches the leg length, that is after `journeyLength / speed` seconds |
| `Patrol.BalloonRandomPatrol.constructor` | Assets/BalloonRandomPatrol.cs:22-27 | the leg state starts zeroed and the target index at -1 |
| `Patrol.BalloonRandomPatrol.PickNewDestination` | Assets/BalloonRandomPatrol.cs:73-95 | the new index lies in range, differs from the previous one, and is the first acceptable draw; the leg starts at the entity's actual position, ends at that waypoint, has the start–end distance as its length and the current time as its start |
| `Patrol.BalloonRandomPatrol.Start` | Assets/BalloonRandomPatrol.cs:29-39 | with no waypoints nothing changes; otherwise the entity and the leg start are snapped to waypoint 0 before the first pick, which from -1 takes one draw |
| `Patrol.BalloonRandomPatrol.Update` | Assets/BalloonRandomPatrol.cs:41-71 | with fewer than two waypoints nothing changes; otherwise the entity moves and a new leg starts in the same frame exactly when `fractionOfJourney >= 1`, taking the first acceptable draw and consuming exactly the draws up to it; else the leg and the generator are untouched |
| `Orbit.Clamp` | Assets/lookAt.cs:139 | the clamped radius lies in `[min, max]` when `min <= max`, equals the input when it is already inside, and is always the input or a bound |
| `Orbit.LerpBetween` | Assets/lookAt.cs:72 | the smoothed radius lies between the old radius and the target, so the step never overshoots |
| `Orbit.LerpEnds` | Assets/lookAt.cs:72 | a smoothing factor of 0 or below keeps the old radius, 1 or above reaches the target |
| `Orbit.LerpGap` | Assets/lookAt.cs:72 | one smoothing step leaves `1 - t` (clamped) of the gap to the target, so the gap shrinks geometrically without overshoot |
| `Orbit.LerpStaysInInterval` | Assets/lookAt.cs:72 | when both radii lie in an interval the smoothed radius does too |
| `Orbit.ScrollOnly` | Assets/lookAt.cs:115-119 | without a two-finger touch the target moves by exactly `-scroll * zoomSpeedMouse` before the clamp |
| `Orbit.PinchOnly` | Assets/lookAt.cs:122-135 | without scroll, the target moves by `(prevSeparation - curSeparation) * zoomSpeedTouch` exactly when two touches are active, and not at all otherwise |
| `Orbit.SingleClampDiffersFromStepwise` | Assets/lookAt.cs:115-139 | an example input (radius 3, scroll 1, pinch from 10 to 2, bounds 2 to 20) on which the single clamp gives 2 and clamping after each term would give 6, so the two clamp orders differ |
| `Orbit.CameraOrbitOscillate.Start` | Assets/lookAt.cs:41-62 | with a target, both radii are set to the unclamped initial offset length, and the flat offset plus the height recompose the offset; without one nothing changes |
| `Orbit.CameraOrbitOscillate.HandleZoomInput` | Assets/lookAt.cs:112-140 | the target radius is the clamped sum of scroll and pinch terms, lies in bounds when `minDistance <= maxDistance`, and stays put without input when already in bounds |
| `Orbit.CameraOrbitOscillate.Update` | Assets/lookAt.cs:64-80 | without a target nothing changes; otherwise the input is applied, the current radius takes one smoothing step that ends between its old value and the new target, the sway clock advances and the camera moves to the host-computed position; a current radius in bounds stays in bounds |
| `Crops.TruncMatchesEuclidean` | Assets/cropManager.cs:108-109 | for a count and a positive row width, C#'s truncating `/` and `%` agree with Euclidean division |
| `Crops.SlotOf` | Assets/cropManager.cs:108-109 | `row * maxCropsPerRow + col` gives the count back and `0 <= col < |maxCropsPerRow|` |
| `Crops.SlotsDistinct` | Assets/cropManager.cs:108-109 | distinct counts get distinct grid cells |
| `Crops.PositionsDistinct` | Assets/cropManager.cs:111-112 | with non-zero crop width and length, crops planted at distinct counts never share a position |
| `Crops.ChargeAffordable` | Assets/cropManager.cs:91-93 | with a non-negative price, an affordable purchase takes exactly the price and leaves a balance between 0 and the old one |
| `Crops.CropManager.constructor` | Assets/cropManager.cs:18-28 | no crops planted, coins and grid zeroed |
| `Crops.CropManager.Start` | Assets/cropManager.cs:31-42 | `startingCoins` is written only when the key is absent and an existing balance is kept; the cached coins equal the stored balance |
| `Crops.CropManager.SpawnCrop` | Assets/cropManager.cs:106-122 | the next crop is placed at `startPosition + (col * cropWidth, 0, row * cropLength)` at the plane's height and the count rises by one; with `maxCropsPerRow == 0` the division throws and nothing changes |
| `Crops.CropManager.TryBuyAndSpawnCrop` | Assets/cropManager.cs:87-104 | the purchase goes ahead exactly when the stored balance is at least the price; it then takes the price from the stored and cached balance and plants one crop, unless the spawn throws; otherwise store, count and crops are untouched |
| `Crops.CropManager.ResetCoins` | Assets/cropManager.cs:124-130 | stored and cached balance become `startingCoins`; planted crops and their count are kept |
| `Prefs.Wrap32` | Assets/CoinGranter.cs:38 | unchecked `int` addition yields the `int` congruent to the sum modulo 2^32, and the sum itself when it fits |
| `Prefs.WrapAddRegroup` | Assets/CoinGranter.cs:38 | two wrapped additions equal one wrapped addition of the wrapped sum |
| `Prefs.PlayerPrefs.GetInt` | Assets/CoinGranter.cs:35 | a stored key yields its value and a missing key the default |
| `Prefs.PlayerPrefs.SetInt` | Assets/CoinGranter.cs:41 | writing a key changes that entry and no other |
| `Granter.CreditFrame` | Assets/CoinGranter.cs:41 | a credit changes only the entry under the coin key |
| `Granter.CreditExact` | Assets/CoinGranter.cs:35-38 | when the sum fits, the new balance is the old one plus the amount, starting from 0 when the key is missing |
| `Granter.CreditTwice` | Assets/CoinGranter.cs:32-42 | `AddCoins(a)` then `AddCoins(b)` leaves the store as `AddCoins(a + b)` does |
| `Granter.CoinGranter.AddCoins` | Assets/CoinGranter.cs:32-45 | the stored balance becomes the old balance (0 if absent) plus the amount, wrapped; no other entry changes |
| `Granter.CoinGranter.GrantCoins` | Assets/CoinGranter.cs:24-27 | granting is adding `amountToGrant` |
| `Granter.CoinGranter.TestGrant` | Assets/CoinGranter.cs:49-52 | the test entry grants exactly as `GrantCoins` does |
| `CoinDisplay.NatDigits` | Assets/coinUI.cs:34 | the decimal rendering is a non-empty string of digits with no leading zero |
| `CoinDisplay.NatDigitsRoundTrip` | Assets/coinUI.cs:34 | reading the digits back gives the number |
| `CoinDisplay.DecimalRoundTrip` | Assets/coinUI.cs:34 | reading a signed balance's text back gives the balance, so distinct balances never share a label |
| `CoinDisplay.CoinUI.constructor` | Assets/coinUI.cs:14 | the cached count starts at -1, so the first frame redraws for any balance but -1 |
| `CoinDisplay.CoinUI.UpdateText` | Assets/coinUI.cs:30-36 | a present label's text becomes the prefix followed by the cached count in decimal; a missing label is left alone |
| `CoinDisplay.CoinUI.Update` | Assets/coinUI.cs:16-28 | the cached count becomes the stored balance (0 if absent); the label is redrawn exactly when they differed, the store is never written, and a frame over an unchanged balance changes nothing |

## Left out

- The eased path, the turbulence and the position write of the balloon
  (`Assets/BalloonRandomPatrol.cs:53-64`) are left out. `Mathf.SmoothStep`, `Vector3.Lerp` and
  `Mathf.PerlinNoise` are single-precision library numerics. The host computes the new position
  and passes it to `Update`.
- `Vector3.magnitude` is a square root in single precision. It is a function supplied to each
  controller, so `Vector3.Distance` is that function applied to `a - b`.
- `Patrol.BalloonRandomPatrol.PickNewDestination` requires that the draw stream contains an
  acceptable draw. Without it, the source's loop is not known to end, and a terminating model
  cannot express divergence.
- `JourneyComplete` models IEEE division by zero (+Infinity, NaN) but not float rounding near
  `fractionOfJourney == 1`.
- The computation of the camera's new position (sway angle, rotation, zoom scaling, handheld
  noise, `Assets/lookAt.cs:76-104`) and `LookAt` are left out. They are trigonometric and noise
  numerics with no discrete contract. `currentSwayTime` is kept, and the host computes the new
  position and passes it to `Update`, which writes it every frame with a target.
- Input polling and touch-separation magnitudes (`Assets/lookAt.cs:115-133`) are parameters: the
  scroll value, the touch count, and the previous and current finger separation.
- `CalculateGridDimensions` (`Assets/cropManager.cs:44-85`) reads renderer bounds and scales. The
  grid it computes (start position, crop width and length, crops per row) and the plane's height
  are inputs to `Start`.
- `Crops.CropManager.SpawnCrop` uses the plane's height recorded at `Start`. The code reads
  `planeTarget.position.y` at every spawn (`Assets/cropManager.cs:112`), so the model assumes
  the plane does not move after `Start`.
- `Crops.CropManager.SpawnCrop`: `cropsSpawnedCount` is a `nat`. Its `int` wrap after 2^31 - 1
  spawns is not modelled.
- `Instantiate` and the `localScale` copy are recorded only as the position of the planted crop.
  `Debug.Log`, `PlayerPrefs.Save` (a flush to disk), `OnDrawGizmos` and TextMeshPro rendering
  beyond the label's string are left out.
- The reward-event subscription in `OnEnable`/`OnDisable` (`Assets/CoinGranter.cs:10-18`) and
  `Assets/Scripts/GameRewardHandler.cs` are left out. They are event wiring to an external
  advertising SDK, and the handler only logs.
- Inspector fields are constants of each object. Changing them at run time is not modelled.
- `CoinDisplay.Decimal` assumes the current culture's negative sign is "-".
