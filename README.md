# 3Dice: a verified model of the dice simulation

3Dice is a .NET MAUI app that rolls tabletop dice (D4, D6, D8, D10, D12, D20, D100). This
project models its logic in Dafny and proves properties of that model. Drawing is not modelled.

- **Vectors** (`vectors.dfy`). `Vector3D` as an immutable value over the reals, with its operators, `Length`, `Normalize` and `Dot`.
- **Basic die** (`basicdice.dfy`). `Dice3D` as a class. Its `Update` runs these phases in order:
  - integration;
  - side walls;
  - floor and ceiling;
  - friction;
  - the one-way transition into the settled state, which computes `FinalValue`.
- **Enhanced die** (`enhanceddice.dfy`). `EnhancedDice3D` as a class. It has a table plane at 70% of the height, a ceiling, extra friction near the table and a stricter settle condition.
- **Shared die data** (`diestate.dfy`). The state both dice keep, and the two phases they share.
- **Particles** (`particles.dfy`). `Particle`: gravity, a lifetime that counts down, and `IsExpired`.
- **Embedded session** (`rollingview.dfy`). `DiceRollingView`:
  - `RollDice` lays out basic dice along a wrapping row;
  - `OnTimerTick` steps every die and raises the grouped results once, when all have settled.
- **Full-screen session** (`fullscreen.dfy`). `FullScreenDiceRollingPage`:
  - `StartRolling` places enhanced dice on a grid;
  - `OnTimerTick` steps the dice and particles and removes expired particles by index from the back;
  - on completion it builds the results text (`CreateResultsText`) and adds a burst of 50 particles (`CreateCelebrationParticles`).
- **Main page** (`mainpage.dfy`). `MainPage` handlers:
  - per-type counts bounded to [0, 20];
  - clear all;
  - the selection summary;
  - the instant roll with its result text and grand total.
- **Shared support:**
  - `dicetypes.dfy`: the `DiceType` record and how a selection expands into dice;
  - `grouping.dfy`: `GroupBy(d => d.Sides)` in first-occurrence order;
  - `results.dfy`: the result-text formats;
  - `text.dfy`: integer formatting, `string.Join`, and splitting into lines;
  - `numerics.dfy`: C# integer `%`, `(int)` casts, float `%`, `Math.Ceiling(Math.Sqrt(n))`.

Each class's fields mirror the source's fields. Its methods update them in place. Each method's
`ensures` ties the new state to a pure function of the old state (`State() == Step(old(State()),
dt, w, h)`, `Snapshot() == Tick(old(Snapshot()), ...)`). The properties the code promises are
proved as lemmas about those functions.

Single-precision `float` is `real`. `Length < k` is compared through squared lengths: a caller
supplies a `len` with `len * len == |v|^2`, and `LengthBelow` connects the two forms.
`System.Random`, the clock and the canvas size become inputs: draws in [0, 1), `dt`, width and
height.

The model follows the code as written:
- it adds no clamp on the time step;
- a roll that selects no dice leaves the session rolling with no dice;
- the two die classes keep their own constants and collision rules.

## Model

| member | source | states |
|---|---|---|
| Vectors.Add | 3Dice/Models/Vector3D.cs:18 | operator +, componentwise; specified by `SubAddCancel` (undone by `Sub`) and `AddCommutes` |
| Vectors.Sub | 3Dice/Models/Vector3D.cs:19 | operator -, componentwise; `SubAddCancel` proves it inverse to `Add` |
| Vectors.Scale | 3Dice/Models/Vector3D.cs:20 | operator * by a scalar; `ScaleIdentities` and `ScaleScale` give its unit, zero and composition laws |
| Vectors.Dot | 3Dice/Models/Vector3D.cs:30 | the dot product; `DotProperties` proves it symmetric and equal to the squared length on a vector with itself |
| Vectors.LengthSquared | 3Dice/Models/Vector3D.cs:22 | the quantity under the square root of `Length`; `LengthSquaredZeroIff`, `LengthZeroIff` and `LengthBelow` relate it to the length |
| Vectors.Normalize | 3Dice/Models/Vector3D.cs:24-28 | division by a positive length, else the zero vector; `NormalizeZero`, `NormalizeNonZero`, `QuotientsUnit` give the zero case and the unit length |
| Vectors.SubAddCancel | 3Dice/Models/Vector3D.cs:18-19 | subtracting then adding `b` gives back `a`, and adding then subtracting `b` does too |
| Vectors.AddCommutes | 3Dice/Models/Vector3D.cs:18 | vector addition is commutative |
| Vectors.ScaleIdentities | 3Dice/Models/Vector3D.cs:20 | `v * 1 == v`, and `v * 0` is the zero vector |
| Vectors.ScaleScale | 3Dice/Models/Vector3D.cs:20 | scaling by `s` and then by `t` is scaling by `s * t` |
| Vectors.LengthSquaredZeroIff | 3Dice/Models/Vector3D.cs:22 | the squared length is non-negative, and zero exactly for the zero vector |
| Vectors.LengthZeroIff | 3Dice/Models/Vector3D.cs:22 | a length is non-negative, and zero exactly for the zero vector |
| Vectors.LengthBelow | 3Dice/Models/Vector3D.cs:22 | `Length < k` (for k > 0) holds exactly when the squared length is below `k * k` |
| Vectors.DotProperties | 3Dice/Models/Vector3D.cs:22-30 | `Dot` is symmetric, and `Dot(v, v)` is the squared length |
| Vectors.NormalizeZero | 3Dice/Models/Vector3D.cs:24-28 | normalizing the zero vector gives the zero vector, without dividing |
| Vectors.NormalizeNonZero | 3Dice/Models/Vector3D.cs:27 | a non-zero vector has a positive length; normalizing it scales it by `1/len`, and the result has unit length |
| Vectors.QuotientsScale | 3Dice/Models/Vector3D.cs:27 | dividing each component by `d > 0` is scaling by `1/d` |
| Vectors.QuotientsUnit | 3Dice/Models/Vector3D.cs:27 | the components divided by the length form a vector of squared length 1 |
| Numerics.Abs | 3Dice/Models/Dice3D.cs:106 | `Math.Abs`: non-negative, and equal to x or -x |
| Numerics.Min | 3Dice/Models/Dice3D.cs:108 | `Math.Min`: at most both arguments, and equal to one of them |
| Numerics.Max | 3Dice/Models/Dice3D.cs:108 | `Math.Max`: at least both arguments, and equal to one of them |
| Numerics.Trunc | 3Dice/Models/Dice3D.cs:107 | the `(int)` cast rounds toward zero: within 1 of x, on the side of zero |
| Numerics.Rem | 3Dice/Models/Dice3D.cs:107 | C# `%`: the remainder takes the dividend's sign and has a magnitude below the divisor's |
| Numerics.RemQuotient | 3Dice/Models/Dice3D.cs:107 | dividend == divisor * truncated quotient + remainder |
| Numerics.QuotTowardZero | 3Dice/Views/FullScreenDiceRollingPage.cs:98-99 | the truncated quotient lies between zero and the exact quotient |
| Numerics.FloatRem | 3Dice/Models/EnhancedDice3D.cs:138 | float `%` of a non-negative value by m > 0 lies in [0, m) |
| Numerics.CeilSqrt | 3Dice/Views/FullScreenDiceRollingPage.cs:91 | `(int)Math.Ceiling(Math.Sqrt(n))`: the least r with r * r >= n |
| DieStates.Launch | 3Dice/Models/Dice3D.cs:23-40 | a constructor's state; the constructors' ensures and `Initial` in each die module fix its factors |
| DieStates.Integrate | 3Dice/Models/Dice3D.cs:60-65 | the integration phase; `IntegrateEffect` states each field it sets and those it keeps |
| DieStates.SideWall | 3Dice/Models/Dice3D.cs:68-75 | the side-wall phase; `SideWallBounds` (the die ends inside) and `SideWallEffect` (what a contact changes) specify it |
| DieStates.RotationSum | 3Dice/Models/Dice3D.cs:106 | the sum of absolute rotation angles is non-negative |
| DieStates.IntegrateEffect | 3Dice/Models/Dice3D.cs:60-65 | the integration phase adds dt to the bounce time and gravity·dt to `Velocity.Y`, moves the position by the updated velocity, turns the rotation by the angular velocity, and leaves the angular velocity, sides, size, rolling flag and final value alone |
| DieStates.SideWallBounds | 3Dice/Models/Dice3D.cs:68-75 | when the width is at least the size, x ends in [size/2, w - size/2] after the side-wall block |
| DieStates.SideWallEffect | 3Dice/Models/EnhancedDice3D.cs:73-81 | a side hit multiplies `Velocity.X` by -restitution and `AngularVelocity.X` by the friction; without a hit nothing changes; only the x position, velocity and angular velocity change |
| BasicDice.FloorAndCeiling | 3Dice/Models/Dice3D.cs:77-84 | the vertical bounds phase; `FloorAndCeilingEffect` and `StepStaysInBounds` specify it |
| BasicDice.ApplyFriction | 3Dice/Models/Dice3D.cs:87-88 | both velocities times 0.98; `StepOutcome` states the slowed velocities of a tick that does not settle |
| BasicDice.Settle | 3Dice/Models/Dice3D.cs:91-99 | the one-way transition to rest; `StepOutcome` states when it fires and what it leaves, `SlowEnoughByLengths` its test |
| BasicDice.Moved | 3Dice/Models/Dice3D.cs:60-88 | the phases of a tick before the settle test, in source order; used by `StepOutcome` |
| BasicDice.Step | 3Dice/Models/Dice3D.cs:56-100 | one `Update`; specified by `StepSettled`, `StepRolling`, `StepStaysInBounds`, `StepOutcome` and `StepKeepsSides` |
| BasicDice.Initial | 3Dice/Models/Dice3D.cs:23-40 | the constructor's state with factors 400, 200, lift 100, 300 and spin 10; `Dice3D.constructor` ensures it |
| BasicDice.Run | 3Dice/Models/Dice3D.cs:56-100 | repeated `Update` calls; `RunSettled` and `RunRollingPrefix` specify it |
| BasicDice.FinalValue | 3Dice/Models/Dice3D.cs:102-109 | the final value is at least 1, and at most `Sides` when `Sides >= 1` |
| BasicDice.FinalValueUnclamped | 3Dice/Models/Dice3D.cs:106-108 | for `Sides >= 1` the clamp does nothing: the value is `(int)(sum * 100) % Sides + 1` |
| BasicDice.StepSettled | 3Dice/Models/Dice3D.cs:58 | a step of a settled die changes nothing |
| BasicDice.StepRolling | 3Dice/Models/Dice3D.cs:60-65 | a rolling step adds exactly dt to the bounce time, keeps sides and size, and turns the rotation by angular velocity·dt |
| BasicDice.StepStaysInBounds | 3Dice/Models/Dice3D.cs:68-84 | when W >= Size and H >= Size, after a rolling step x is in [Size/2, W - Size/2] and y is in [Size/2, H - Size/2] |
| BasicDice.FloorAndCeilingEffect | 3Dice/Models/Dice3D.cs:77-84 | a vertical hit multiplies `Velocity.Y` by -0.3 whatever its sign and `AngularVelocity.Y` by 0.98; otherwise nothing changes |
| BasicDice.StepOutcome | 3Dice/Models/Dice3D.cs:86-99 | the die settles exactly when the state after friction is slow enough. If still rolling, both velocities are the bounced ones times 0.98. If settled, both are zero and the final value comes from the rotation |
| BasicDice.SlowEnoughByLengths | 3Dice/Models/Dice3D.cs:91 | the squared-length test is `Velocity.Length < 50 && AngularVelocity.Length < 1 && _bounceTime > 2` |
| BasicDice.StepKeepsSides | 3Dice/Models/Dice3D.cs:56-100 | `Update` never changes `Sides` |
| BasicDice.RunSettled | 3Dice/Models/Dice3D.cs:58 | settling is terminal: no run of updates changes a settled die |
| BasicDice.RunRollingPrefix | 3Dice/Models/Dice3D.cs:91-99 | a die rolling after a run of updates was rolling after every prefix of it (no way back from settled) |
| BasicDice.Dice3D.constructor | 3Dice/Models/Dice3D.cs:23-40 | the new die has the given sides and position, the drawn velocities `(u - 0.5) * scale`, and the declared defaults |
| BasicDice.Dice3D.Update | 3Dice/Models/Dice3D.cs:56-100 | the new state is `Step` of the old one |
| BasicDice.Dice3D.Advance | 3Dice/Models/Dice3D.cs:60-65 | the integration phase with gravity 980 |
| BasicDice.Dice3D.BounceOffSides | 3Dice/Models/Dice3D.cs:68-75 | the side-wall phase with restitution 0.3 and friction 0.98 |
| BasicDice.Dice3D.BounceOffTopAndBottom | 3Dice/Models/Dice3D.cs:77-84 | the floor and ceiling phase |
| BasicDice.Dice3D.SlowDown | 3Dice/Models/Dice3D.cs:87-88 | both velocities multiplied by 0.98 |
| BasicDice.Dice3D.SettleIfSlow | 3Dice/Models/Dice3D.cs:91-99 | the settle phase: when slow enough, stop, zero both velocities and set the final value |
| EnhancedDice.TableSurface | 3Dice/Models/EnhancedDice3D.cs:69 | the table plane at 70% of the height; the bounds in `StepStaysInBounds` and `StepOutcome` are stated against it |
| EnhancedDice.Table | 3Dice/Models/EnhancedDice3D.cs:84-95 | the table contact; `TableContact` states the resting position and the case split on the vertical velocity |
| EnhancedDice.Ceiling | 3Dice/Models/EnhancedDice3D.cs:98-105 | the top boundary; `StepStaysInBounds` proves the die ends below it |
| EnhancedDice.FrictionFactor | 3Dice/Models/EnhancedDice3D.cs:117 | `Friction * frictionMultiplier`; `FrictionNearTable` gives its two values |
| EnhancedDice.ApplyFriction | 3Dice/Models/EnhancedDice3D.cs:117-119 | friction scaled near the table; `FrictionNearTable` specifies it |
| EnhancedDice.Settle | 3Dice/Models/EnhancedDice3D.cs:122-131 | the transition to rest on the table; `StepOutcome` states when it fires and what it leaves, `ReadyByLengths` its test |
| EnhancedDice.Collided | 3Dice/Models/EnhancedDice3D.cs:61-105 | the phases before friction, in source order; used by `StepOutcome` and `StepStaysInBounds` |
| EnhancedDice.Step | 3Dice/Models/EnhancedDice3D.cs:57-132 | one `Update`; specified by `StepSettled`, `StepRolling`, `StepStaysInBounds` and `StepOutcome` |
| EnhancedDice.Initial | 3Dice/Models/EnhancedDice3D.cs:24-41 | the constructor's state with factors 600, 400, lift 200, 400 and spin 15; `EnhancedDice3D.constructor` ensures it |
| EnhancedDice.NormalizedRotation | 3Dice/Models/EnhancedDice3D.cs:138 | `(sum * 1000) % 1000` lies in [0, 1000) |
| EnhancedDice.FinalValue | 3Dice/Models/EnhancedDice3D.cs:134-141 | the final value is at least 1, and at most `Sides` when `Sides >= 1` |
| EnhancedDice.FinalValueUnclamped | 3Dice/Models/EnhancedDice3D.cs:137-140 | for `Sides >= 1` the unclamped value already lies in [1, Sides], and the result equals it |
| EnhancedDice.ScaledValue | 3Dice/Models/EnhancedDice3D.cs:139 | `(int)(n * Sides / 1000) + 1` lies in [1, Sides] for n in [0, 1000) |
| EnhancedDice.ScaledRotation | 3Dice/Models/EnhancedDice3D.cs:139 | `n * Sides / 1000` lies in [0, Sides) |
| EnhancedDice.StepSettled | 3Dice/Models/EnhancedDice3D.cs:59 | a step of a settled die changes nothing |
| EnhancedDice.StepRolling | 3Dice/Models/EnhancedDice3D.cs:61-66 | a rolling step adds exactly dt to the bounce time, keeps sides and size, and turns the rotation by angular velocity·dt |
| EnhancedDice.TableContact | 3Dice/Models/EnhancedDice3D.cs:84-95 | on a table hit, y becomes table - Size/2. `Velocity.Y` is flipped and damped by -0.4, and `AngularVelocity.Y` damped by 0.985, only when it was positive. Afterwards `Velocity.Y <= 0` |
| EnhancedDice.StepStaysInBounds | 3Dice/Models/EnhancedDice3D.cs:73-105 | when 0.7·H >= Size, y ends in [Size/2, 0.7·H - Size/2]; when also W >= Size, x ends in [Size/2, W - Size/2] |
| EnhancedDice.FrictionNearTable | 3Dice/Models/EnhancedDice3D.cs:117-119 | the factor is 0.985·0.95 within 5 of the table and 0.985 elsewhere; it scales both velocities and leaves the position alone |
| EnhancedDice.StepOutcome | 3Dice/Models/EnhancedDice3D.cs:116-131 | the die settles exactly when the state after friction is ready. If still rolling, the state is the one after friction. If settled, both velocities are zero, y = table - Size/2, and the final value comes from the rotation, in [1, Sides] |
| EnhancedDice.ReadyByLengths | 3Dice/Models/EnhancedDice3D.cs:122-123 | the squared-length test is `Velocity.Length < 30 && AngularVelocity.Length < 0.5 && _bounceTime > 3` plus near the table |
| EnhancedDice.EnhancedDice3D.constructor | 3Dice/Models/EnhancedDice3D.cs:24-41 | the new die has the given sides and position, the drawn velocities with this class's factors, and the declared defaults |
| EnhancedDice.EnhancedDice3D.Update | 3Dice/Models/EnhancedDice3D.cs:57-132 | the new state is `Step` of the old one |
| EnhancedDice.EnhancedDice3D.Advance | 3Dice/Models/EnhancedDice3D.cs:61-66 | the integration phase with gravity 1200 |
| EnhancedDice.EnhancedDice3D.BounceOffSides | 3Dice/Models/EnhancedDice3D.cs:73-81 | the side-wall phase with restitution 0.4 and friction 0.985 |
| EnhancedDice.EnhancedDice3D.BounceOffTable | 3Dice/Models/EnhancedDice3D.cs:84-95 | the table phase |
| EnhancedDice.EnhancedDice3D.BounceOffTop | 3Dice/Models/EnhancedDice3D.cs:98-105 | the ceiling phase |
| EnhancedDice.EnhancedDice3D.SlowDown | 3Dice/Models/EnhancedDice3D.cs:117-119 | both velocities scaled by the near-table friction factor |
| EnhancedDice.EnhancedDice3D.SettleIfReady | 3Dice/Models/EnhancedDice3D.cs:122-131 | the settle phase: when ready, stop, zero both velocities, put the die on the table and set the final value |
| Particles.Step | 3Dice/Models/Particle.cs:22-32 | one `Update`; `StepExpired` and `StepLive` specify both branches |
| Particles.Run | 3Dice/Models/Particle.cs:22-32 | repeated `Update` calls; `RunExpired` and `RunLife` specify it |
| Particles.StepExpired | 3Dice/Models/Particle.cs:24 | an update of an expired particle changes nothing |
| Particles.StepLive | 3Dice/Models/Particle.cs:26-31 | on a live particle an update reduces `Life` by exactly dt. Only `Velocity.Y` changes, by 200·dt. The position moves by the updated velocity·dt. Size and `MaxLife` are kept |
| Particles.RunExpired | 3Dice/Models/Particle.cs:13-24 | once expired, a particle stays exactly as it is under any further updates |
| Particles.RunLife | 3Dice/Models/Particle.cs:31 | after a run of updates a live particle has lost exactly the total time; once the total time reaches its life, it is expired |
| Particles.Particle.constructor | 3Dice/Models/Particle.cs:7-20 | a new particle is at rest at the origin with `Life == MaxLife == 1` and size 5 |
| Particles.Particle.IsExpired | 3Dice/Models/Particle.cs:13 | `IsExpired` holds exactly when `Life <= 0` |
| Particles.Particle.Update | 3Dice/Models/Particle.cs:22-32 | the new state is `Step` of the old one |
| DiceTypes.Expand | 3Dice/Views/DiceRollingView.cs:56-66 | the dice a selection creates, in order; `ExpandLength`, `ExpandSides`, `ExpandAppend` and `ExpandPrefix` specify it |
| DiceTypes.Copies | 3Dice/Views/DiceRollingView.cs:58 | `for (i = 0; i < n; i++)` yields n copies (none for n <= 0) |
| DiceTypes.Selected | 3Dice/MainPage.xaml.cs:68 | `Where(d => d.Count > 0)` keeps only types of the list with a positive count |
| DiceTypes.ExpandLength | 3Dice/Views/DiceRollingView.cs:56-66 | a roll creates as many dice as the positive counts add up to |
| DiceTypes.ExpandSides | 3Dice/Views/DiceRollingView.cs:56-66 | every die created has the sides of a type with a positive count |
| DiceTypes.ExpandAppend | 3Dice/Views/FullScreenDiceRollingPage.cs:94-113 | dice are created type by type, in type order |
| DiceTypes.ExpandPrefix | 3Dice/Views/FullScreenDiceRollingPage.cs:94-96 | the first t + 1 types give the dice of the first t followed by type t's |
| DiceTypes.SelectedEmpty | 3Dice/MainPage.xaml.cs:84-86 | the selection is empty exactly when no type has a positive count |
| DiceTypes.TotalCountZero | 3Dice/MainPage.xaml.cs:68-69 | no die is selected exactly when no type has a positive count |
| DiceTypes.CountSumIsTotal | 3Dice/Views/FullScreenDiceRollingPage.cs:90 | with no negative counts, `Sum(d => d.Count)` is the number of dice created |
| Grouping.GrandTotal | 3Dice/Views/FullScreenDiceRollingPage.cs:175-180 | the sum of the group totals; `GrandTotalIsSum` proves it the sum of all values |
| Grouping.Without | 3Dice/Views/DiceRollingView.cs:99-105 | removing one key's dice removes exactly that key's values |
| Grouping.GroupBySides | 3Dice/Views/DiceRollingView.cs:99-105 | every group has at least one value |
| Grouping.ValuesOfWithout | 3Dice/Views/DiceRollingView.cs:99-105 | after removing key s, key s has no values and the other keys keep theirs |
| Grouping.ValuesOfAppend | 3Dice/Views/DiceRollingView.cs:99-105 | a key's values in two lists joined are its values in each, in order |
| Grouping.HasSidesWithout | 3Dice/Views/DiceRollingView.cs:99-105 | after removing key s, exactly the other keys remain |
| Grouping.HasSidesValues | 3Dice/Views/DiceRollingView.cs:99-105 | a key occurs exactly when it has values |
| Grouping.GroupValues | 3Dice/Views/DiceRollingView.cs:102-103 | each group holds exactly its key's values in dice order, and they are non-empty |
| Grouping.GroupKeysAreKeys | 3Dice/Views/DiceRollingView.cs:99-102 | every group's key is the sides of some die |
| Grouping.KeysHaveGroups | 3Dice/Views/DiceRollingView.cs:99-102 | every die's sides has a group |
| Grouping.GroupKeysDistinct | 3Dice/Views/DiceRollingView.cs:99-102 | no two groups share a key |
| Grouping.GroupValueCount | 3Dice/Views/DiceRollingView.cs:99-105 | the groups hold as many values as there are dice |
| Grouping.SumValuesSplit | 3Dice/Views/FullScreenDiceRollingPage.cs:177-180 | the sum of all values is one key's sum plus the sum of the rest |
| Grouping.GrandTotalIsSum | 3Dice/Views/FullScreenDiceRollingPage.cs:167-181 | the sum of the group totals is the sum of every die's final value |
| Grouping.FirstIndex | 3Dice/Views/DiceRollingView.cs:99 | the first occurrence of a key is a die with that key |
| Grouping.FirstIndexIsFirst | 3Dice/Views/DiceRollingView.cs:99 | no earlier die has that key |
| Grouping.HasSidesTail | 3Dice/Views/DiceRollingView.cs:99 | when the first die has another key, the first occurrence moves one place in the rest |
| Grouping.WithoutKeepsOrder | 3Dice/Views/DiceRollingView.cs:99 | removing a third key keeps the order of two keys' first occurrences |
| Grouping.GroupsInFirstOccurrenceOrder | 3Dice/Views/DiceRollingView.cs:99-105 | groups come in the order in which their keys first occur among the dice |
| Grouping.Outcomes | 3Dice/Views/DiceRollingView.cs:103 | one (sides, final value) outcome per die, in dice order |
| Grouping.GrandTotalPrefix | 3Dice/Views/FullScreenDiceRollingPage.cs:179-180 | `grandTotal += groupTotal`: the total of i + 1 groups is that of i groups plus group i's sum |
| Text.Join | 3Dice/Views/FullScreenDiceRollingPage.cs:191 | `string.Join`; `SplitJoin` proves `Split` inverts it, `JoinWithout` that it adds no character but the separator's |
| Text.NatToString | 3Dice/Views/FullScreenDiceRollingPage.cs:182 | a formatted natural is a non-empty string of digits without a leading zero |
| Text.IntToString | 3Dice/Views/FullScreenDiceRollingPage.cs:182 | a formatted integer is digits with an optional leading minus, starting with a digit exactly when it is non-negative |
| Text.ParseNatToString | 3Dice/Views/FullScreenDiceRollingPage.cs:182 | reading back a formatted natural gives the number |
| Text.IntToStringRoundTrip | 3Dice/Views/FullScreenDiceRollingPage.cs:204 | reading back a formatted integer gives the number, so the grand total can be recovered from the text |
| Text.IntToStringInjective | 3Dice/Views/FullScreenDiceRollingPage.cs:204 | different integers are formatted differently |
| Text.IntStrings | 3Dice/Views/FullScreenDiceRollingPage.cs:191 | each value formatted, in order |
| Text.SplitJoin | 3Dice/Views/FullScreenDiceRollingPage.cs:204 | `string.Join("\n", parts)` splits back into the parts when none holds a newline |
| Text.SplitJoinThen | 3Dice/Views/FullScreenDiceRollingPage.cs:204 | the joined parts followed by a newline and more split into the parts and then the rest |
| Text.JoinWithout | 3Dice/Views/FullScreenDiceRollingPage.cs:191 | joining introduces no character that neither the separator nor the parts contain |
| Text.IntToStringWithout | 3Dice/Views/FullScreenDiceRollingPage.cs:204 | a formatted integer contains no newline or other non-digit besides the minus |
| Results.GroupLine | 3Dice/Views/FullScreenDiceRollingPage.cs:185-193 | a group's line; `GroupLineNoNewline` and `FormatGroup` specify it |
| Results.Report | 3Dice/Views/FullScreenDiceRollingPage.cs:198-205 | the single-die and multi-line forms of a results text; `ReportLines` states its lines |
| Results.DiceName | 3Dice/Views/FullScreenDiceRollingPage.cs:182 | `D` and the number of sides; `FullScreenTextLines` shows it in each line |
| Results.FullScreenText | 3Dice/Views/FullScreenDiceRollingPage.cs:165-205 | `_resultsText`; `FullScreenTextIsReport`, `FullScreenTextSplit` and `FullScreenTextLines` specify it |
| Results.FullScreenLines | 3Dice/Views/FullScreenDiceRollingPage.cs:177-196 | one line per group |
| Results.FormatGroup | 3Dice/Views/FullScreenDiceRollingPage.cs:179-193 | the loop body gives the group's line and its total, the sum of its values |
| Results.FormatLines | 3Dice/Views/FullScreenDiceRollingPage.cs:174-196 | the loop gives one line per group in order, and the grand total is the sum of the group totals |
| Results.FormatResults | 3Dice/Views/FullScreenDiceRollingPage.cs:174-205 | the text is the full-screen results text of the groups, and the total is their grand total |
| Results.GroupLineNoNewline | 3Dice/Views/FullScreenDiceRollingPage.cs:182-193 | a group line has no newline when the name has none |
| Results.FullScreenLinesNoNewline | 3Dice/Views/FullScreenDiceRollingPage.cs:182-196 | no group line has a newline |
| Results.ReportLines | 3Dice/Views/FullScreenDiceRollingPage.cs:204 | the multi-line text splits into the heading, the group lines, a blank line and the total line; the total reads back from that line |
| Results.FullScreenTextIsReport | 3Dice/Views/FullScreenDiceRollingPage.cs:198-205 | unless there is one group of one value, the text is `"Results:\n" + lines joined + "\n\nGrand Total: " + total` |
| Results.FullScreenTextSplit | 3Dice/Views/FullScreenDiceRollingPage.cs:198-205 | that text splits into `"Results:"`, the group lines, `""` and `"Grand Total: N"` |
| Results.FullScreenTextLines | 3Dice/Views/FullScreenDiceRollingPage.cs:165-205 | for the dice's own grouping, the total line carries the sum of every die's final value |
| RollingView.CurrentX | 3Dice/Views/DiceRollingView.cs:54-73 | `currentX` for the k-th die; `CurrentXClosedForm` and `CurrentXBounds` specify it |
| RollingView.StartPosition | 3Dice/Views/DiceRollingView.cs:60-64 | where a die is created; `StartPositionBounds` specifies it |
| RollingView.Created | 3Dice/Views/DiceRollingView.cs:58-66 | the state of the k-th new die; `PlaceDice` and `RollDice` ensure each die has it |
| RollingView.CurrentXClosedForm | 3Dice/Views/DiceRollingView.cs:53-73 | die k starts from `currentX` = 50 + 40·(k mod 6) |
| RollingView.CurrentXBounds | 3Dice/Views/DiceRollingView.cs:53-73 | `currentX` always stays in [50, 250] |
| RollingView.StartPositionBounds | 3Dice/Views/DiceRollingView.cs:60-64 | each die starts with x in [50, 350), y in [50, 100) and z = 0 |
| RollingView.StepAll | 3Dice/Views/DiceRollingView.cs:89-94 | one state per die |
| RollingView.StepAllAt | 3Dice/Views/DiceRollingView.cs:91 | each die is updated with the 300 × 300 bounds |
| RollingView.StepAllKeepsSides | 3Dice/Views/DiceRollingView.cs:89-94 | updates keep every die's sides non-zero |
| RollingView.ResultsCoverDice | 3Dice/Views/DiceRollingView.cs:99-105 | the results hold one value per die, their total is the sum of the final values, and each group holds its key's values in dice order |
| RollingView.AllSettledPrefix | 3Dice/Views/DiceRollingView.cs:92-93 | `stillRolling` accumulates: the first i + 1 dice are settled exactly when the first i are and die i is |
| RollingView.UpdateDieAt | 3Dice/Views/DiceRollingView.cs:91-93 | one loop pass updates die i and reports whether it still rolls |
| RollingView.UpdateDice | 3Dice/Views/DiceRollingView.cs:88-94 | every die is updated once, and `stillRolling` holds exactly when some die still rolls |
| RollingView.DiceRollingView.constructor | 3Dice/Views/DiceRollingView.cs:11-21 | a new view has no dice and is not rolling |
| RollingView.DiceRollingView.RollDice | 3Dice/Views/DiceRollingView.cs:46-78 | while rolling, it does nothing. Otherwise it starts rolling with exactly the selected number of dice, in type order, die k created with its type's sides at the k-th layout position |
| RollingView.DiceRollingView.PlaceDice | 3Dice/Views/DiceRollingView.cs:58-74 | the inner loop appends `Count` new dice of the given sides at their layout positions and keeps `currentX` at the layout rule |
| RollingView.DiceRollingView.AddDiceOfType | 3Dice/Views/DiceRollingView.cs:56-75 | one pass of the outer loop adds type t's dice, or none when its count is not positive |
| RollingView.DiceRollingView.OnTimerTick | 3Dice/Views/DiceRollingView.cs:80-118 | when not rolling, nothing changes. While rolling, every die is updated, and `DiceRolled` is raised exactly when there is a die and all have settled. Rolling stops at that moment, so it fires at most once, with the grouped results |
| FullScreen.StartPoint | 3Dice/Views/FullScreenDiceRollingPage.cs:98-103 | where die k starts; `SpawnedInCell` and `SpawnedApart` specify it |
| FullScreen.Spawned | 3Dice/Views/FullScreenDiceRollingPage.cs:98-107 | the state of the k-th new die; `SpawnedInCell`, `SpawnedApart` and `SpawnDice` specify it |
| FullScreen.Celebration | 3Dice/Views/FullScreenDiceRollingPage.cs:213-224 | a celebration particle; `CelebrationParticle` and `BurstAt` specify it |
| FullScreen.Advanced | 3Dice/Views/FullScreenDiceRollingPage.cs:127-141 | the updates of an active tick; `TickCases` and `TickKeepsValues` specify it |
| FullScreen.Completed | 3Dice/Views/FullScreenDiceRollingPage.cs:144-149 | the completion of a roll; `TickCompletion` specifies it |
| FullScreen.Tick | 3Dice/Views/FullScreenDiceRollingPage.cs:118-163 | one `OnTimerTick`; `TickCases`, `TickCompletion`, `TickParticlesAlive`, `TickLifeBound`, `ParticlesClear` and `TickKeepsValues` specify it |
| FullScreen.Ticks | 3Dice/Views/FullScreenDiceRollingPage.cs:118-163 | a sequence of ticks; `CompletesOnce` proves a roll completes at most once |
| FullScreen.DicePerRow | 3Dice/Views/FullScreenDiceRollingPage.cs:91 | `min(6, ceil(sqrt(total)))` is at most 6, and at least 1 when there is a die |
| FullScreen.DicePerRowFits | 3Dice/Views/FullScreenDiceRollingPage.cs:91 | up to 36 dice the square grid holds them all; beyond 36 there are 6 per row |
| FullScreen.RowsFit | 3Dice/Views/FullScreenDiceRollingPage.cs:90-98 | up to 36 dice, every die's row index `k / dicePerRow` is below `dicePerRow`, so the layout is a square grid of at most 6 × 6 |
| FullScreen.SpawnedInCell | 3Dice/Views/FullScreenDiceRollingPage.cs:98-107 | each die is 50 to 70 in size and lies inside its 120 × 120 grid cell |
| FullScreen.SpawnedApart | 3Dice/Views/FullScreenDiceRollingPage.cs:96-107 | two different dice get different cells and start without overlapping: one lies wholly left of, right of, above or below the other |
| FullScreen.CelebrationParticle | 3Dice/Views/FullScreenDiceRollingPage.cs:213-224 | a burst particle starts alive at the canvas centre, with life in [2, 4), `MaxLife == 1` (the constructor copied the default life), and size in [3, 8); it has expired once 4 seconds have passed |
| FullScreen.NewCelebrationParticle | 3Dice/Views/FullScreenDiceRollingPage.cs:213-224 | the new particle has the burst particle's state |
| FullScreen.StepAll | 3Dice/Views/FullScreenDiceRollingPage.cs:128-133 | one state per die |
| FullScreen.StepAllAt | 3Dice/Views/FullScreenDiceRollingPage.cs:130 | each die is updated against the canvas size |
| FullScreen.StepParticles | 3Dice/Views/FullScreenDiceRollingPage.cs:138 | each particle updated once, in order |
| FullScreen.LiveParticles | 3Dice/Views/FullScreenDiceRollingPage.cs:136-141 | the survivors are no more than the particles |
| FullScreen.LiveParticlesExact | 3Dice/Views/FullScreenDiceRollingPage.cs:139-140 | exactly the unexpired particles survive |
| FullScreen.LiveParticlesNone | 3Dice/Views/FullScreenDiceRollingPage.cs:139-140 | when all have expired, none survive |
| FullScreen.Kept | 3Dice/Views/FullScreenDiceRollingPage.cs:136-141 | the kept particle objects are no more than the list |
| FullScreen.KeptFrom | 3Dice/Views/FullScreenDiceRollingPage.cs:136-141 | removal from index i on keeps particle i exactly when it is alive, before the survivors behind it |
| FullScreen.KeptFromList | 3Dice/Views/FullScreenDiceRollingPage.cs:136-141 | only particles from the list are kept |
| FullScreen.KeptDistinct | 3Dice/Views/FullScreenDiceRollingPage.cs:136-141 | the kept particles are still distinct objects |
| FullScreen.KeptStates | 3Dice/Views/FullScreenDiceRollingPage.cs:136-141 | the kept objects' states are the surviving states in their original order |
| FullScreen.Burst | 3Dice/Views/FullScreenDiceRollingPage.cs:211-225 | one particle per set of draws |
| FullScreen.BurstAt | 3Dice/Views/FullScreenDiceRollingPage.cs:211-225 | particle k of the burst is built from draws k |
| FullScreen.TickCases | 3Dice/Views/FullScreenDiceRollingPage.cs:118-163 | an inactive tick changes nothing. An active one updates every die. Rolling continues unless the tick completes. A tick that does not complete keeps the results and leaves exactly the updated survivors |
| FullScreen.TickCompletion | 3Dice/Views/FullScreenDiceRollingPage.cs:144-150 | on completion: rolling stops, the results show, all dice are settled, and the text is that of their grouped results, whose grand total is the sum of their final values. The 50 burst particles follow the survivors |
| FullScreen.CompletesOnce | 3Dice/Views/FullScreenDiceRollingPage.cs:144-150 | once the page has stopped rolling, no run of ticks starts it again or changes its results |
| FullScreen.TickParticlesAlive | 3Dice/Views/FullScreenDiceRollingPage.cs:136-149 | after any tick no expired particle is left |
| FullScreen.TickLifeBound | 3Dice/Views/FullScreenDiceRollingPage.cs:136-141 | every particle's life stays below any bound of at least 4 |
| FullScreen.ParticlesClear | 3Dice/Views/FullScreenDiceRollingPage.cs:124-141 | after the roll, a tick at least as long as every remaining life removes all particles, and the page goes idle |
| FullScreen.TickKeepsValues | 3Dice/Views/FullScreenDiceRollingPage.cs:127-133 | ticks keep every settled die's value in [1, Sides] |
| FullScreen.UpdateDieAt | 3Dice/Views/FullScreenDiceRollingPage.cs:130-132 | one loop pass updates die i and reports whether it still rolls |
| FullScreen.AllSettledPrefix | 3Dice/Views/FullScreenDiceRollingPage.cs:131-132 | `stillRolling` accumulates over the dice in order |
| FullScreen.UpdateDice | 3Dice/Views/FullScreenDiceRollingPage.cs:127-133 | every die is updated once, and `stillRolling` holds exactly when some die still rolls |
| FullScreen.StepParticleAt | 3Dice/Views/FullScreenDiceRollingPage.cs:138 | `_particles[i].Update(dt)` updates particle i and no other |
| FullScreen.RemoveIfExpired | 3Dice/Views/FullScreenDiceRollingPage.cs:139-140 | `RemoveAt(i)` drops particle i exactly when it has expired |
| FullScreen.UpdateParticleAt | 3Dice/Views/FullScreenDiceRollingPage.cs:136-141 | one pass from the back: particle i is updated, and removed if expired |
| FullScreen.UpdateParticleList | 3Dice/Views/FullScreenDiceRollingPage.cs:136-141 | every particle is updated once. The list left holds exactly the survivors, in their original order, as distinct objects |
| FullScreen.AppendBurst | 3Dice/Views/FullScreenDiceRollingPage.cs:211-225 | exactly 50 new particles follow the old ones, with the burst's states |
| FullScreen.SpawnDice | 3Dice/Views/FullScreenDiceRollingPage.cs:96-112 | the inner loop appends `Count` new dice of the given sides, die k at its grid cell |
| FullScreen.SpawnDiceOfType | 3Dice/Views/FullScreenDiceRollingPage.cs:94-112 | one pass of the outer loop adds type t's dice, or none when its count is not positive |
| FullScreen.SpawnAll | 3Dice/Views/FullScreenDiceRollingPage.cs:94-113 | one new die per die of the selection, in type order, die k spawned at grid cell k |
| FullScreen.ResultsText | 3Dice/Views/FullScreenDiceRollingPage.cs:165-206 | the text is the results text of the dice's grouped outcomes |
| FullScreen.FullScreenDiceRollingPage.constructor | 3Dice/Views/FullScreenDiceRollingPage.cs:25-29 | a new page is rolling with no particles, and has exactly the selected dice at their grid cells |
| FullScreen.FullScreenDiceRollingPage.StartRolling | 3Dice/Views/FullScreenDiceRollingPage.cs:82-116 | both lists are emptied, rolling starts without results shown, and exactly `Σ Count` dice are created in type order, die k at grid cell k of `min(6, ceil(sqrt(total)))` per row |
| FullScreen.FullScreenDiceRollingPage.OnTimerTick | 3Dice/Views/FullScreenDiceRollingPage.cs:118-163 | the new page state is `Tick` of the old one |
| FullScreen.FullScreenDiceRollingPage.Advance | 3Dice/Views/FullScreenDiceRollingPage.cs:127-141 | the dice and particle updates of a tick, with `stillRolling` exactly when some die still rolls |
| FullScreen.FullScreenDiceRollingPage.Complete | 3Dice/Views/FullScreenDiceRollingPage.cs:144-150 | the completion: rolling stops, results shown, text built, burst added |
| FullScreen.FullScreenDiceRollingPage.UpdateParticles | 3Dice/Views/FullScreenDiceRollingPage.cs:136-141 | the particles become the updated survivors; nothing else changes |
| FullScreen.FullScreenDiceRollingPage.CreateResultsText | 3Dice/Views/FullScreenDiceRollingPage.cs:165-206 | `_resultsText` becomes the results text of the dice; nothing else changes |
| FullScreen.FullScreenDiceRollingPage.CreateCelebrationParticles | 3Dice/Views/FullScreenDiceRollingPage.cs:208-226 | exactly 50 particles are added after the existing ones; nothing else changes |
| MainPageModel.SummaryText | 3Dice/MainPage.xaml.cs:65-80 | the summary label; `SummaryNoneSelected` and `SummaryPartAt` specify it |
| MainPageModel.RollText | 3Dice/MainPage.xaml.cs:120-128 | the result label after a roll; `RollTextLines`, `PageRollTextLines` and `RollTextSingle` specify it |
| MainPageModel.Announcement | 3Dice/MainPage.xaml.cs:131 | the screen-reader message with the grand total; `MainPage.OnRollDiceClicked` ensures it is announced |
| MainPageModel.StandardTypes | 3Dice/MainPage.xaml.cs:20-29 | the page offers seven dice types |
| MainPageModel.StandardNames | 3Dice/MainPage.xaml.cs:20-29 | the standard names hold no newline and every type has at least 4 sides |
| MainPageModel.Decremented | 3Dice/MainPage.xaml.cs:31-41 | the decrease keeps the list's length |
| MainPageModel.Incremented | 3Dice/MainPage.xaml.cs:43-53 | the increase keeps the list's length |
| MainPageModel.TotalCountUpdate | 3Dice/MainPage.xaml.cs:37-49 | changing one count changes the number of selected dice by the change in that positive count |
| MainPageModel.DecrementedEffect | 3Dice/MainPage.xaml.cs:35-38 | the decrease acts only when `Count > 0`. It keeps every count in [0, 20], leaves the other types alone, and lowers the number of dice by one exactly when it acts |
| MainPageModel.IncrementedEffect | 3Dice/MainPage.xaml.cs:47-50 | the increase acts only when `Count < 20`. It keeps every count in [0, 20], leaves the other types alone, and raises the number of dice by one exactly when it acts |
| MainPageModel.IncrementDecrement | 3Dice/MainPage.xaml.cs:31-53 | an increase that acts is undone by a decrease, and a decrease that acts by an increase |
| MainPageModel.Cleared | 3Dice/MainPage.xaml.cs:57-60 | clearing keeps the list's length |
| MainPageModel.ClearedEffect | 3Dice/MainPage.xaml.cs:57-60 | after clearing, nothing is selected, and every type keeps its sides and name |
| MainPageModel.SummaryParts | 3Dice/MainPage.xaml.cs:71 | one part per selected type |
| MainPageModel.SummaryPartAt | 3Dice/MainPage.xaml.cs:71 | part k is `"{Count}x {Name}"` of selected type k |
| MainPageModel.SummaryNoneSelected | 3Dice/MainPage.xaml.cs:68-79 | the summary is `"No dice selected"` exactly when nothing is selected; otherwise it starts with a count's digit |
| MainPageModel.RollGroups | 3Dice/MainPage.xaml.cs:95-101 | one group per selected type |
| MainPageModel.RollLines | 3Dice/MainPage.xaml.cs:95-118 | one result line per selected type |
| MainPageModel.DrawValues | 3Dice/MainPage.xaml.cs:97-101 | the inner loop collects exactly the `Count` draws, in order |
| MainPageModel.RollAll | 3Dice/MainPage.xaml.cs:92-118 | the loop yields each selected type's line, and `grandTotal` is the sum of the group totals |
| MainPageModel.RollResult | 3Dice/MainPage.xaml.cs:92-128 | the text is the instant-roll text of the groups, and the total is their grand total |
| MainPageModel.RollValueCount | 3Dice/MainPage.xaml.cs:97-101 | each selected type yields exactly `Count` values |
| MainPageModel.SelectedCountSum | 3Dice/MainPage.xaml.cs:84 | the selected types' counts add up to the number of dice selected |
| MainPageModel.RollCount | 3Dice/MainPage.xaml.cs:95-101 | a roll draws one value per selected die |
| MainPageModel.GrandTotalBounds | 3Dice/MainPage.xaml.cs:100-104 | with every value in [1, Sides], the grand total lies between the number of values and every die at its top face |
| MainPageModel.RollTotalBounds | 3Dice/MainPage.xaml.cs:100-104 | the grand total of a roll lies between the number of dice selected and every die at its top face |
| MainPageModel.RollTextLines | 3Dice/MainPage.xaml.cs:120-128 | unless one die is rolled, the text splits into `"🎲 Results:"`, the group lines, `""` and `"🎯 Grand Total: N"`, and N reads back as the grand total |
| MainPageModel.PageRollTextLines | 3Dice/MainPage.xaml.cs:120-128 | the same for the page's own dice types |
| MainPageModel.RollTextSingle | 3Dice/MainPage.xaml.cs:121-124 | one die gives `"🎲 Result:\n{Name}: {v}"`, with v in [1, Sides] |
| MainPageModel.MainPage.constructor | 3Dice/MainPage.xaml.cs:13-29 | the page starts with the seven standard types at count 0 and nothing announced |
| MainPageModel.MainPage.UpdateSummary | 3Dice/MainPage.xaml.cs:65-80 | the label becomes the summary text, and the clear button shows exactly when something is selected; nothing else changes |
| MainPageModel.MainPage.OnDecreaseDiceClicked | 3Dice/MainPage.xaml.cs:31-41 | the types become the decreased list and every count stays in bounds. The summary is refreshed exactly when the handler acts |
| MainPageModel.MainPage.OnIncreaseDiceClicked | 3Dice/MainPage.xaml.cs:43-53 | the types become the increased list and every count stays in bounds. The summary is refreshed exactly when the handler acts |
| MainPageModel.MainPage.OnClearAllClicked | 3Dice/MainPage.xaml.cs:55-63 | every count becomes 0. The summary reads `"No dice selected"`, the clear button hides, and the result reads `"Select dice and roll!"` |
| MainPageModel.MainPage.OnRollDiceClicked | 3Dice/MainPage.xaml.cs:82-132 | with nothing selected, only the prompt is set. Otherwise the result is the roll text of the drawn values, and the grand total is announced once; the selection is unchanged |

## Left out

- **Drawing.** All drawing is left out because it only renders state. This covers:
  - every `Draw*` method, `OnPaintSurface`, and the shadow, glow, pips and text;
  - the colour tables of both die constructors and `GetRandomParticleColor`;
  - `_glowIntensity`, which only feeds drawing;
  - the particle colour and the alpha byte overflow in `Particle.Draw`.
- **Host UI plumbing.** Left out because it is framework glue:
  - `InitializeComponent`, `Dispatcher.StartTimer`, `InvalidateSurface`, `MainThread.BeginInvokeOnMainThread` and the title label update;
  - `Navigation.PopAsync` and the back button.

  The label texts, the clear button's visibility and the announcements are fields of `MainPage`. `SemanticScreenReader.Announce` appends to the `announcements` list.
- **The clock.** `DateTime.Now` is left out. Each tick takes the elapsed time `dt` as a parameter, and no clamp is added, because the code has none.
- **`System.Random`.** Draws are parameters. `NextSingle()` values lie in [0, 1) (`UnitDraws`), and `Next(1, Sides + 1)` values lie in [1, Sides] (`ValidRolls`).
- **The canvas size.** `OnPaintSurface` records it; here the full-screen tick takes width and height as parameters.
- **Floating point.** `float` is modelled as `real`, with no rounding, NaN or infinity. `Math.Sqrt` is not computed: lengths are compared through their squares. The overflow of the `(int)` cast for huge rotation sums is not modelled.
- **Integer overflow.** 32-bit overflow of counts and totals is not modelled. Integers are unbounded, and counts stay in [0, 20].
- **The sender pattern.** The `sender is Button button && button.CommandParameter is DiceType` test is modelled as an index into the page's list; an index outside the list makes the handler do nothing.
- **XAML initial texts.** The initial label and button values come from the XAML, which is not part of this model. They are constructor parameters of `MainPage`.
- `3Dice/Models/DiceGroup.cs` is unused by the code and is not part of this model.
- BasicDice.FinalValue: requires `Sides != 0`, because C# `% 0` throws and the exception path is not modelled. `BasicDice.Dice3D.Update`, `BasicDice.Dice3D.SettleIfSlow` and `RollingView.DiceRollingView.RollDice` inherit the requirement, which holds for all the page's types.
- FullScreen.FullScreenDiceRollingPage.StartRolling: requires no negative count. With a negative count, `Sum(d => d.Count)` would differ from the number of dice created, and `MainPage` never produces one.
- FullScreen.FullScreenDiceRollingPage.constructor: has the same no-negative-count requirement as `StartRolling`.
- **How the list loops are modelled:**
  - `RollDice` clears the `dice` field, and `PlaceDice` appends each new die to that field, as the code's `Clear` and `Add` do.
  - `StartRolling` builds the new dice in a local sequence and then assigns it to the field.
  - In both, the `fresh` facts state that the dice are new objects.
  - The particle removal loop works on a local copy of the list and assigns the survivors at the end.
  - Each loop body is a helper method of its own.
  - The celebration particles are appended to a local list before it is assigned.
