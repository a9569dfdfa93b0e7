# Wahlzeit coordinates and football domain, in Dafny

This project models two parts of the Wahlzeit photo-rating application
(package `org.wahlzeit.model` and `org.wahlzeit.utils`) and proves what
their code promises.

**Coordinates.** `CartesianCoordinate` (x, y, z) and `SphericCoordinate`
(phi, theta, radius) are immutable value objects. They are obtained only
through a static `getInstance` factory. The factory validates its
arguments and then interns the instance in a static table. The table is
keyed by a 32-bit hash that folds the long bits of the three doubles.
`AbstractCoordinate` adds `equals` and `isEqual`, which hand the comparison
to the receiver's `isEqualHelper`. It also adds the Cartesian-distance and
central-angle template methods, which convert both operands and check the
result. `DoubleValuesUtil` supplies the finiteness test, the 1e-8 epsilon
comparison and the not-near-zero guard. `Coordinate` is an older mutable
x/y/z class with its own 1e-15 epsilon.

**Football domain.** `FootballType` is a type object with a supertype link,
a set of subtypes and a recursive `hasInstance` search. `Football` is a base
object with a type, an id and a list of player names. `FootballManager`
keeps a get-or-create table of types and a registry of footballs.
`FootballPhoto` carries a player-name list. `FootballPhotoFactory` is kept
in a static slot that is set once.

How the Java world is represented:

- A Java `double` is `JavaDouble.Double`: `Finite(real) | NaN | PosInf | NegInf`.
  Arithmetic on finite values is exact, and the IEEE rules are followed for
  NaN and the infinities.
- `java.lang.Math` is a `JavaMath.MathLib` parameter: any choice of
  sqrt, pow, sin, cos, acos and atan2 within the ranges Java documents.
  `Laws` adds sqrt(0) = 0, pow(0, 2) = 0 and the sign rule of atan2.
- `Double.doubleToLongBits` is a parameter (`LongBits`). The hash fold is
  computed in `bv32` wrap-around arithmetic.
- Exceptions are `Outcomes.JavaException` tags in `Result` and `Outcome`
  values, and a Java null argument is `None`.
- Each static table is an object with a `map` field (`CartesianCache`,
  `SphericCache`, `FootballManager`, `FactorySlot`). The methods that may
  insert take that object and state the new table.
- A `List<String>` is a `PlayerNames.NameList` object, so that
  `getPlayerNames` can hand out the live list. A Java String is a
  `JString`. It is null or a text, marked when it is the interned literal,
  because `removeSinglePlayer` compares its argument with `""` by
  reference.

Results worth knowing:

- Coordinate `equals` is not symmetric. The Cartesian origin equals the
  spheric origin (`CartesianOriginEqualsSphericOrigin`). The spheric origin
  does not equal the Cartesian origin, because a point of radius zero
  cannot be converted to spheric (`SphericOriginDoesNotEqualCartesianOrigin`).
- Every `Football` gets id 0, because each object starts its own counter.
  So the football registry never holds more than the last football
  (`RegistryHoldsOneFootball`).
- Converting a spheric coordinate to Cartesian always succeeds. Sine and
  cosine lie in [-1, 1], so each product is bounded by the finite radius and
  `CartesianCoordinate.getInstance` accepts it. So the catch blocks that turn a
  failed conversion into `false` or into a CoordinateComputationException
  are never taken in `CartesianCoordinate.isEqualHelper` and
  `getCartesianDistance`.

## Model

| member | source | states |
|---|---|---|
| DoubleValuesUtil.IsValidDouble | src/main/java/org/wahlzeit/utils/DoubleValuesUtil.java:40-45 | true exactly when the value is neither NaN nor infinite |
| DoubleValuesUtil.CompareDoubles | src/main/java/org/wahlzeit/utils/DoubleValuesUtil.java:19-26 | false if either value is NaN; true exactly when both are finite and differ by strictly less than 1e-8 |
| DoubleValuesUtil.CompareDoublesSymmetric | src/main/java/org/wahlzeit/utils/DoubleValuesUtil.java:19-26 | the comparison is symmetric |
| DoubleValuesUtil.CompareDoublesReflexive | src/main/java/org/wahlzeit/utils/DoubleValuesUtil.java:19-26 | a value compares equal to itself exactly when it is finite |
| DoubleValuesUtil.AssertDoubleIsNotZero | src/main/java/org/wahlzeit/utils/DoubleValuesUtil.java:31-35 | throws IllegalArgumentException exactly for a value in [-1e-8, 1e-8], both bounds included; NaN and the infinities pass |
| SphericRules.AssertIsValidPhi | src/main/java/org/wahlzeit/model/SphericCoordinate.java:104-108 | passes exactly for finite phi with 0 <= phi < 2 PI, otherwise IllegalArgumentException |
| SphericRules.AssertIsValidTheta | src/main/java/org/wahlzeit/model/SphericCoordinate.java:113-117 | passes exactly for finite theta in [0, PI], otherwise IllegalArgumentException |
| SphericRules.AssertIsValidRadius | src/main/java/org/wahlzeit/model/SphericCoordinate.java:122-126 | passes exactly for a finite radius >= 0, otherwise IllegalArgumentException |
| SphericRules.GetInstanceCheck | src/main/java/org/wahlzeit/model/SphericCoordinate.java:33-41 | the argument checks of `getInstance` pass exactly when all three values are finite and in range, otherwise IllegalArgumentException |
| SphericRules.ClassInvariantCheck | src/main/java/org/wahlzeit/model/SphericCoordinate.java:256-271 | `assertClassInvariants` passes exactly for finite, in-range fields, otherwise IllegalStateException |
| SphericRules.Boundaries | src/main/java/org/wahlzeit/model/SphericCoordinate.java:104-126 | phi = 2 PI is rejected; phi = 0, theta = PI and radius = 0 are accepted |
| SphericRules.ChecksAgree | src/main/java/org/wahlzeit/model/SphericCoordinate.java:256-271 | whatever passes the checks of `getInstance` passes `assertClassInvariants`, and the converse |
| ConversionFormulas.AsSphericRadius | src/main/java/org/wahlzeit/model/CartesianCoordinate.java:137-145 | the radius sqrt(x²+y²+z²) is returned exactly when it passes `assertIsValidRadius`, otherwise IllegalArgumentException |
| ConversionFormulas.AsSphericTheta | src/main/java/org/wahlzeit/model/CartesianCoordinate.java:151-159 | succeeds exactly when x is not near zero and atan2(y, x) lies in [0, PI], and then returns that value |
| ConversionFormulas.AsSphericPhi | src/main/java/org/wahlzeit/model/CartesianCoordinate.java:165-173 | succeeds exactly when the radius is valid and not near zero and acos(z / radius) lies in [0, 2 PI) |
| ConversionFormulas.AsSphericValues | src/main/java/org/wahlzeit/model/CartesianCoordinate.java:113-131 | succeeds exactly when phi, theta and radius all succeed, and then returns (acos(z / radius), atan2(y, x), radius), each in range; any failure becomes CoordinateConversionException |
| ConversionFormulas.AsSphericValuesSucceeds | src/main/java/org/wahlzeit/model/CartesianCoordinate.java:113-173 | with the documented Math behaviour, a point converts exactly when its radius is finite and not near zero, acos is a number, x is not near zero and y >= 0 |
| ConversionFormulas.NegativeYNeverConverts | src/main/java/org/wahlzeit/model/CartesianCoordinate.java:151-159 | a point with y < 0 never converts to spheric |
| ConversionFormulas.OriginNeverConverts | src/main/java/org/wahlzeit/model/CartesianCoordinate.java:165-173 | the origin never converts to spheric |
| ConversionFormulas.AsCartesianValues | src/main/java/org/wahlzeit/model/SphericCoordinate.java:157-176 | finite angles and radius give finite x, y, z; radius 0 gives the origin whatever the angles |
| ConversionFormulas.CartesianDistance | src/main/java/org/wahlzeit/model/CartesianCoordinate.java:99-106 | `doGetCartesianDistance` is never negative: NaN, +infinity or a finite value >= 0 |
| ConversionFormulas.DistanceToSameValuesIsZero | src/main/java/org/wahlzeit/model/CartesianCoordinate.java:99-106 | the distance between two finite points with the same values is 0 |
| ConversionFormulas.CentralAngle | src/main/java/org/wahlzeit/model/SphericCoordinate.java:191-196 | the central angle is NaN or a finite value in [0, PI] |
| CoordinateHash.HashFoldIsPolynomial | src/main/java/org/wahlzeit/model/CartesianCoordinate.java:213-224 | the three steps `result = 31 * result + word` from 1, which `doGetHashCode` applies to the folded long bits of its arguments in order, add up to 31^3 + 31^2 a + 31 b + c modulo 2^32 |
| Interning.Intern | src/main/java/org/wahlzeit/model/CartesianCoordinate.java:31-43 | after a get-or-insert the key is present, every old entry is kept unchanged, no other key is added, and on a miss the offered entry is stored |
| Interning.Resolve | src/main/java/org/wahlzeit/model/CartesianCoordinate.java:31-43 | a hit returns the stored entry and a miss returns the new one |
| Interning.InternedGrows | src/main/java/org/wahlzeit/model/CartesianCoordinate.java:31-43 | entries are never replaced or removed, and the returned entry is stored under the key |
| Interning.InternedTwice | src/main/java/org/wahlzeit/model/CartesianCoordinate.java:31-43 | two lookups under the same key return the same reference, and the second leaves the table unchanged |
| Interning.GrowsTransitive | src/main/java/org/wahlzeit/model/CartesianCoordinate.java:31-43 | growth over one call after another is growth over both |
| Interning.ResolveAfterIntern | src/main/java/org/wahlzeit/model/CartesianCoordinate.java:31-43 | a second lookup resolves to what the first resolved to, whatever it offers |
| Interning.HitIgnoresOffer | src/main/java/org/wahlzeit/model/CartesianCoordinate.java:33-35 | on a hit the result does not depend on the values offered: lookup is by key only |
| Coordinates.CartesianCoordinate.constructor | src/main/java/org/wahlzeit/model/CartesianCoordinate.java:17-21 | stores x, y, z |
| Coordinates.CartesianCoordinate.AssertClassInvariants | src/main/java/org/wahlzeit/model/CartesianCoordinate.java:231-240 | never fails: every instance has finite fields |
| Coordinates.CartesianCoordinate.HashCode | src/main/java/org/wahlzeit/model/CartesianCoordinate.java:202-206 | the hash is the interning key of the instance's own values |
| Coordinates.CartesianCoordinate.SetX | src/main/java/org/wahlzeit/model/CartesianCoordinate.java:55-60 | a non-finite x throws IllegalArgumentException and leaves the table alone; otherwise returns the interned instance for (x, this.y, this.z); the receiver cannot change |
| Coordinates.CartesianCoordinate.SetY | src/main/java/org/wahlzeit/model/CartesianCoordinate.java:67-72 | as SetX, for y |
| Coordinates.CartesianCoordinate.SetZ | src/main/java/org/wahlzeit/model/CartesianCoordinate.java:79-84 | as SetX, for z |
| Coordinates.CartesianCoordinate.AsSphericCoordinate | src/main/java/org/wahlzeit/model/CartesianCoordinate.java:113-131 | fails exactly when the guarded computation fails, with CoordinateConversionException and the spheric table unchanged; otherwise returns the interned spheric instance of the computed values |
| Coordinates.CartesianCoordinate.IsEqualHelper | src/main/java/org/wahlzeit/model/CartesianCoordinate.java:182-198 | null throws NullPointerException; otherwise the argument's Cartesian values are compared pairwise with `compareDoubles`; the Cartesian table only grows |
| Coordinates.SphericCoordinate.constructor | src/main/java/org/wahlzeit/model/SphericCoordinate.java:27-31 | stores phi, theta, radius |
| Coordinates.SphericCoordinate.AssertClassInvariants | src/main/java/org/wahlzeit/model/SphericCoordinate.java:256-271 | never fails: every instance has in-range fields |
| Coordinates.SphericCoordinate.HashCode | src/main/java/org/wahlzeit/model/SphericCoordinate.java:226-230 | the hash is the interning key of the instance's own values |
| Coordinates.SphericCoordinate.NewSphericCoordinateWithPhi | src/main/java/org/wahlzeit/model/SphericCoordinate.java:67-71 | an invalid phi throws IllegalArgumentException with the table unchanged; otherwise returns the interned instance with only phi replaced |
| Coordinates.SphericCoordinate.NewSphericCoordinateWithTheta | src/main/java/org/wahlzeit/model/SphericCoordinate.java:81-85 | as for phi, with theta |
| Coordinates.SphericCoordinate.NewSphericCoordinateWithRadius | src/main/java/org/wahlzeit/model/SphericCoordinate.java:95-99 | as for phi, with radius |
| Coordinates.SphericCoordinate.AsCartesianCoordinate | src/main/java/org/wahlzeit/model/SphericCoordinate.java:133-151 | always succeeds and returns the interned Cartesian instance of (r sinφ cosθ, r sinφ sinθ, r cosφ) |
| Coordinates.SphericCoordinate.IsEqualHelper | src/main/java/org/wahlzeit/model/SphericCoordinate.java:205-222 | null throws NullPointerException; a failed conversion gives false; otherwise phi, theta and radius are compared pairwise; the spheric table only grows |
| Coordinates.CartesianCache.constructor | src/main/java/org/wahlzeit/model/CartesianCoordinate.java:15 | the table starts empty and consistent |
| Coordinates.CartesianCache.GetInstance | src/main/java/org/wahlzeit/model/CartesianCoordinate.java:24-45 | non-finite values throw IllegalArgumentException with the table unchanged; otherwise get-or-insert under `doGetHashCode(x, y, z)`, where a miss stores a fresh instance and a hit returns the stored one without comparing values; every entry stays stored under its own hash |
| Coordinates.SphericCache.constructor | src/main/java/org/wahlzeit/model/SphericCoordinate.java:24 | the table starts empty and consistent |
| Coordinates.SphericCache.GetInstance | src/main/java/org/wahlzeit/model/SphericCoordinate.java:33-57 | out-of-range or non-finite values throw IllegalArgumentException with the table unchanged; otherwise the same get-or-insert under `doGetHashCode(phi, theta, radius)` |
| Coordinates.SphericOf | src/main/java/org/wahlzeit/model/CartesianCoordinate.java:113-131 | the only failure of a conversion to spheric is CoordinateConversionException |
| Coordinates.CloseReflexive | src/main/java/org/wahlzeit/utils/DoubleValuesUtil.java:19-26 | finite values are close to themselves |
| Coordinates.AsCartesianCoordinate | src/main/java/org/wahlzeit/model/CartesianCoordinate.java:90-92 | a Cartesian coordinate returns itself with the table unchanged; a spheric one converts; the table only grows |
| Coordinates.AsSphericCoordinate | src/main/java/org/wahlzeit/model/SphericCoordinate.java:182-184 | a spheric coordinate returns itself with the table unchanged; a Cartesian one converts or fails with CoordinateConversionException |
| AbstractCoordinate.AssertIsNonNullArgument | src/main/java/org/wahlzeit/model/AbstractCoordinate.java:50-54 | throws IllegalArgumentException exactly for null |
| AbstractCoordinate.EqualsSpec | src/main/java/org/wahlzeit/model/AbstractCoordinate.java:92-105 | true for the same reference, false for null or a non-Coordinate, never an exception |
| AbstractCoordinate.IsEqual | src/main/java/org/wahlzeit/model/AbstractCoordinate.java:112-114 | the answer is the receiver's `isEqualHelper`, and only the receiver's kind of table can change |
| AbstractCoordinate.Equals | src/main/java/org/wahlzeit/model/AbstractCoordinate.java:92-105 | the answer of `equals` as EqualsSpec describes it; the tables are untouched unless `isEqual` runs |
| AbstractCoordinate.IsEqualReflexive | src/main/java/org/wahlzeit/model/AbstractCoordinate.java:112-114 | every coordinate is `isEqual` to itself |
| AbstractCoordinate.CartesianIsEqualIsClose | src/main/java/org/wahlzeit/model/CartesianCoordinate.java:182-198 | two Cartesian coordinates are equal exactly when their values differ pairwise by less than 1e-8 |
| AbstractCoordinate.SphericOriginConvertsToOrigin | src/main/java/org/wahlzeit/model/SphericCoordinate.java:133-151 | the spheric origin converts to (0, 0, 0), and the Cartesian origin's `isEqualHelper` accepts it, unless a different point sits under the origin's key |
| AbstractCoordinate.CartesianOriginEqualsSphericOrigin | src/main/java/org/wahlzeit/model/AbstractCoordinate.java:92-105 | the Cartesian origin equals the spheric origin |
| AbstractCoordinate.SphericOriginDoesNotEqualCartesianOrigin | src/main/java/org/wahlzeit/model/AbstractCoordinate.java:92-105 | the spheric origin does not equal the Cartesian origin, so `equals` is not symmetric |
| AbstractCoordinate.DistanceSpec | src/main/java/org/wahlzeit/model/AbstractCoordinate.java:14-37 | a result is a finite value >= 0; null gives IllegalArgumentException; every other failure is CoordinateComputationException |
| AbstractCoordinate.GetCartesianDistance | src/main/java/org/wahlzeit/model/AbstractCoordinate.java:14-37 | computes DistanceSpec and leaves the Cartesian table as both conversions leave it |
| AbstractCoordinate.DistanceBetweenSameValuesIsZero | src/test/java/org/wahlzeit/model/CartesianCoordinateTest.java:132-139 | two Cartesian coordinates with the same values, such as two origins, are at distance 0 |
| AbstractCoordinate.DistanceToItselfIsZero | src/main/java/org/wahlzeit/model/AbstractCoordinate.java:14-37 | every coordinate, spheric ones included, is at distance 0 from itself |
| AbstractCoordinate.CentralAngleSpec | src/main/java/org/wahlzeit/model/AbstractCoordinate.java:61-84 | a result is a finite angle in [0, PI]; null gives IllegalArgumentException; a failed conversion or a NaN result gives CoordinateComputationException |
| AbstractCoordinate.GetCentralAngle | src/main/java/org/wahlzeit/model/AbstractCoordinate.java:61-84 | computes CentralAngleSpec and leaves the spheric table as the conversions leave it |
| AbstractCoordinate.CentralAngleRejectsNegativeY | src/main/java/org/wahlzeit/model/AbstractCoordinate.java:61-84 | a Cartesian operand with y < 0, on either side, gives CoordinateComputationException |
| LegacyCoordinate.CompareDoubles | src/main/java/org/wahlzeit/model/Coordinate.java:78-86 | false on NaN; true exactly when both values are finite and differ by less than 1e-15 |
| LegacyCoordinate.LegacyComparisonIsStricter | src/main/java/org/wahlzeit/model/Coordinate.java:78-86 | values equal under 1e-15 are equal under the 1e-8 of DoubleValuesUtil, and not conversely |
| LegacyCoordinate.CompareDoublesSymmetric | src/main/java/org/wahlzeit/model/Coordinate.java:79-86 | the comparison is symmetric |
| LegacyCoordinate.Close15Reflexive | src/main/java/org/wahlzeit/model/Coordinate.java:65-75 | a triple is close to itself exactly when all three values are finite |
| LegacyCoordinate.Coordinate.constructor | src/main/java/org/wahlzeit/model/Coordinate.java:11-15 | stores x, y, z unchanged, and the getters return them |
| LegacyCoordinate.Coordinate.SetX | src/main/java/org/wahlzeit/model/Coordinate.java:22-24 | overwrites x and leaves y and z unchanged |
| LegacyCoordinate.Coordinate.SetY | src/main/java/org/wahlzeit/model/Coordinate.java:30-32 | overwrites y only |
| LegacyCoordinate.Coordinate.SetZ | src/main/java/org/wahlzeit/model/Coordinate.java:38-40 | overwrites z only |
| LegacyCoordinate.Coordinate.GetDistance | src/main/java/org/wahlzeit/model/Coordinate.java:43-49 | null throws NullPointerException; otherwise the result is never a negative number and is the distance formula of the coordinate classes |
| LegacyCoordinate.Coordinate.IsEqual | src/main/java/org/wahlzeit/model/Coordinate.java:65-75 | false for null; otherwise true exactly when all three pairs pass the 1e-15 comparison |
| LegacyCoordinate.Coordinate.Equals | src/main/java/org/wahlzeit/model/Coordinate.java:52-62 | true for the same reference; false for null or another class; otherwise `isEqual` |
| LegacyCoordinate.Coordinate.HashCode | src/main/java/org/wahlzeit/model/Coordinate.java:89-101 | the same fold as the interning key, over the current fields, so it follows the setters |
| LegacyCoordinate.SelfEqualityIsByReference | src/main/java/org/wahlzeit/model/Coordinate.java:52-75 | a coordinate with a NaN component `equals` itself but is not `isEqual` to itself |
| LegacyCoordinate.EqualsSymmetric | src/main/java/org/wahlzeit/model/Coordinate.java:52-75 | `equals` is symmetric |
| LegacyCoordinate.DistanceToSameValuesIsZero | src/main/java/org/wahlzeit/model/Coordinate.java:43-49 | two finite coordinates with the same values are at distance 0 |
| PlayerNames.IndexOf | src/main/java/org/wahlzeit/model/Football.java:76-77 | the first position whose element equals the name (null-safe), or -1 exactly when there is none |
| PlayerNames.RemoveFirst | src/main/java/org/wahlzeit/model/Football.java:76-77 | an absent name changes nothing; otherwise exactly the first matching element is deleted and the list shrinks by one |
| PlayerNames.RemoveFirstKeepsOrder | src/main/java/org/wahlzeit/model/Football.java:74-83 | the remaining names keep their relative order |
| PlayerNames.RemoveEachLength | src/main/java/org/wahlzeit/model/Football.java:89-103 | a batch removal shrinks the list by exactly the number of removals |
| PlayerNames.RemoveEachKeepsOrder | src/main/java/org/wahlzeit/model/Football.java:89-103 | a batch removal keeps the relative order of the remaining names |
| PlayerNames.RemovalsPositiveIff | src/main/java/org/wahlzeit/model/Football.java:89-103 | something is removed exactly when some name of the batch equals some name of the original list |
| PlayerNames.NameList.constructor | src/main/java/org/wahlzeit/model/Football.java:13 | the list starts empty |
| PlayerNames.NameList.Add | src/main/java/org/wahlzeit/model/Football.java:53 | appends at the end |
| PlayerNames.NameList.Contains | src/main/java/org/wahlzeit/model/Football.java:76 | true exactly when an element equals the name |
| PlayerNames.NameList.Remove | src/main/java/org/wahlzeit/model/Football.java:77 | deletes the first match and reports whether there was one |
| FootballModel.AssertValidFootballTypeParameters | src/main/java/org/wahlzeit/model/FootballType.java:185-188 | passes exactly when neither scene nor tournament is null, otherwise IllegalArgumentException |
| FootballModel.FootballType.constructor | src/main/java/org/wahlzeit/model/FootballType.java:63-67 | stores scene and tournament, with no supertype and no subtypes |
| FootballModel.FootballType.Default | src/main/java/org/wahlzeit/model/FootballType.java:55-57 | the default scene in the default tournament |
| FootballModel.FootballType.SetFootballTypeInScene | src/main/java/org/wahlzeit/model/FootballType.java:78-80 | changes the scene only, null allowed |
| FootballModel.FootballType.SetTournamentInScene | src/main/java/org/wahlzeit/model/FootballType.java:92-94 | changes the tournament only |
| FootballModel.FootballType.SetSuperType | src/main/java/org/wahlzeit/model/FootballType.java:116-118 | changes the supertype link only |
| FootballModel.FootballType.CreateInstance | src/main/java/org/wahlzeit/model/FootballType.java:100-102 | a new Football of this type, id 0, with no player names |
| FootballModel.FootballType.AddSubType | src/main/java/org/wahlzeit/model/FootballType.java:134-138 | null throws IllegalArgumentException and changes nothing; otherwise the argument's supertype becomes this, it joins the subtype set, its previous supertype still lists it, and the argument's own subtypes, scene and tournament stay as they were |
| FootballModel.FootballType.IsSubType | src/main/java/org/wahlzeit/model/FootballType.java:145-147 | true exactly when a supertype link is set, which `AddSubType` guarantees for its argument |
| FootballModel.FootballType.HasEqualSuperType | src/main/java/org/wahlzeit/model/FootballType.java:159-161 | true exactly when the scenes are equal, ignoring tournaments; a null argument or a null own scene throws NullPointerException |
| FootballModel.FootballType.HasInstance | src/main/java/org/wahlzeit/model/FootballType.java:166-179 | null throws IllegalArgumentException; otherwise true exactly when the football's type is this type or lies below it; nothing changes |
| FootballModel.ReachesTransitive | src/main/java/org/wahlzeit/model/FootballType.java:166-179 | an instance of a type below `mid` is an instance of every type above `mid` |
| FootballModel.Football.constructor | src/main/java/org/wahlzeit/model/Football.java:26-31 | stores the type and an empty list; the id from the object's own fresh counter is 0 |
| FootballModel.Football.GetFootballId | src/main/java/org/wahlzeit/model/Football.java:36-38 | the id fixed at construction |
| FootballModel.Football.GetPlayerNames | src/main/java/org/wahlzeit/model/Football.java:109-111 | the live list object, not a copy |
| FootballModel.Football.AddSinglePlayerName | src/main/java/org/wahlzeit/model/Football.java:51-54 | a name that fails `assertIsValidString` is rejected with the list unchanged; otherwise it is appended |
| FootballModel.Football.AddMultiplePlayerNames | src/main/java/org/wahlzeit/model/Football.java:60-68 | null throws IllegalArgumentException with the list unchanged; otherwise all names are appended in order |
| FootballModel.Football.RemoveSinglePlayer | src/main/java/org/wahlzeit/model/Football.java:74-83 | null and the `""` literal return false with no change; otherwise the first match is removed and the result says whether there was one |
| FootballModel.Football.RemoveMultiplePlayers | src/main/java/org/wahlzeit/model/Football.java:89-103 | null throws IllegalArgumentException; otherwise each name in turn removes its first match, and the result is true exactly when something was removed |
| FootballModel.NewFootball | src/main/java/org/wahlzeit/model/Football.java:26-31 | a null type throws IllegalArgumentException; otherwise a fresh football of that type with id 0 and a fresh, empty player list |
| FootballModel.NewFootballType | src/main/java/org/wahlzeit/model/FootballType.java:59-67 | a null scene or tournament throws IllegalArgumentException; otherwise a fresh type with those values |
| FootballManager.FootballManager.constructor | src/main/java/org/wahlzeit/model/FootballManager.java:21-27 | both tables start empty |
| FootballManager.FootballManager.GetFootballType | src/main/java/org/wahlzeit/model/FootballManager.java:68-81 | a hit under `Objects.hash(scene, tournament)` returns the stored type whatever its values; a miss constructs, stores and returns a fresh type with the given scene and tournament and no super- or subtypes; a miss with a null parameter throws IllegalArgumentException with the table unchanged |
| FootballManager.FootballManager.CreateFootball | src/main/java/org/wahlzeit/model/FootballManager.java:55-61 | null parameters throw IllegalArgumentException before either table is touched; otherwise a fresh football with id 0 and no names, of the interned type, is registered under its id, replacing the previous one; when the pair's key was not yet stored, that type is a fresh one with the given scene and tournament and no super- or subtypes |
| FootballManager.FootballManager.CreateFootballInDefaultTournament | src/main/java/org/wahlzeit/model/FootballManager.java:43-49 | the two-argument form with the default tournament: null throws IllegalArgumentException with both maps unchanged; otherwise a fresh football with id 0 and no names, of the interned type, registered under id 0; for a key not yet stored, the type is fresh with that scene and the default tournament |
| FootballManager.FootballManager.GetAllTypes | src/main/java/org/wahlzeit/model/FootballManager.java:88-91 | exactly the stored types |
| FootballManager.CreateFootballTwice | src/main/java/org/wahlzeit/model/FootballManager.java:55-61 | two `createFootball` calls on an empty registry leave it holding only the football of the last successful call, under id 0 |
| FootballManager.RegistryHoldsOneFootball | src/main/java/org/wahlzeit/model/FootballManager.java:55-61 | since every id is 0, the registry holds only the last football |
| FootballManager.SamePairSameType | src/main/java/org/wahlzeit/model/FootballManager.java:68-81 | two requests with the same pair return the same reference |
| FootballManager.HandedOutTypesStayListed | src/main/java/org/wahlzeit/model/FootballManager.java:88-91 | a type once handed out stays among the listed types |
| FootballManager.NullSceneSharesKey | src/main/java/org/wahlzeit/model/FootballManager.java:70 | a null scene has the same key as a scene whose hash is 0 |
| FootballPhoto.FootballPhoto.constructor | src/main/java/org/wahlzeit/model/FootballPhoto.java:16-21 | stores the id, with an empty list |
| FootballPhoto.FootballPhoto.AddSinglePlayerName | src/main/java/org/wahlzeit/model/FootballPhoto.java:27-29 | appends without any check, null included |
| FootballPhoto.FootballPhoto.AddMultiplePlayerNames | src/main/java/org/wahlzeit/model/FootballPhoto.java:35-43 | null throws NullPointerException with the list unchanged; otherwise all names are appended in order and the length grows by their number |
| FootballPhoto.FootballPhoto.GetPlayerNames | src/main/java/org/wahlzeit/model/FootballPhoto.java:49-51 | the live list object |
| FootballPhoto.NewFootballPhoto | src/main/java/org/wahlzeit/model/FootballPhoto.java:16-21 | a null id throws IllegalArgumentException; otherwise a fresh photo with that id |
| FootballPhoto.FootballPhotoFactory.CreatePhoto | src/main/java/org/wahlzeit/model/FootballPhotoFactory.java:62-64 | a fresh photo with an empty list |
| FootballPhoto.FootballPhotoFactory.CreatePhotoWithId | src/main/java/org/wahlzeit/model/FootballPhotoFactory.java:70-78 | a null id gives FootballPhotoCreationException; otherwise a fresh photo with that id |
| FootballPhoto.FactorySlot.constructor | src/main/java/org/wahlzeit/model/FootballPhotoFactory.java:13 | the slot starts empty |
| FootballPhoto.FactorySlot.SetInstance | src/main/java/org/wahlzeit/model/FootballPhotoFactory.java:49-54 | a set slot gives IllegalStateException and stays as it was; an empty slot takes the argument, null included |
| FootballPhoto.FactorySlot.GetInstance | src/main/java/org/wahlzeit/model/FootballPhotoFactory.java:34-41 | creates a factory only when the slot is empty; always returns the stored factory and never fails |
| FootballPhoto.FactorySlot.Initialize | src/main/java/org/wahlzeit/model/FootballPhotoFactory.java:23-26 | afterwards the slot is set, and an existing factory is kept |
| FootballPhoto.GetInstanceTwice | src/main/java/org/wahlzeit/model/FootballPhotoFactory.java:34-41 | two calls return the same reference |

## Left out

- Floating point: finite doubles are exact reals, with no rounding, overflow to infinity, underflow or signed zero. The numeric values of `Math.sqrt`, `pow`, `sin`, `cos`, `acos` and `atan2` are not modelled; only their ranges and the few facts in `JavaMath.Laws` are.
- `Double.doubleToLongBits` and the enum `hashCode` are parameters, so hash values and collisions are not computed. The model shows that a collision makes `getInstance` and `getFootballType` return the stored object.
- Coordinates.CartesianCache and Coordinates.SphericCache each hold their own `longBits` parameter; Java has one `Double.doubleToLongBits`, so the model also admits two tables with different bit functions, which every proof here tolerates.
- Concurrency: the `synchronized` methods and double-checked locking are modelled as sequential operations.
- Exception messages, the logger, and the `Photo`, `PhotoId`, `PhotoFactory`, `DataObject`, `ObjectManager` and `StringUtil` supertypes and helpers. `assertIsValidString` is a predicate parameter, and the id that `Photo` assigns to `new FootballPhoto()` is a parameter of `CreatePhoto`.
- Coordinates.CartesianCoordinate: the getters are the constant fields themselves.
- Coordinates.CartesianCoordinate.HashCode, Coordinates.SphericCoordinate.HashCode and LegacyCoordinate.Coordinate.HashCode: stated as the interning key of the instance's values. The key's 31-based polynomial is stated by `CoordinateHash.HashFoldIsPolynomial` over the folded words; the contracts do not restate it per member, and the two's-complement reading of the 32 bits (`ToJavaInt`) carries no contract of its own.
- Coordinates.CartesianCoordinate.SetX, SetY, SetZ and the `getInstance` methods: the calls to `assertClassInvariants` are not repeated in the methods. `AssertClassInvariants` is proved never to fail, because the field types carry the invariant.
- Coordinates.SphericCoordinate.AsCartesianCoordinate: the `try` covers only the three helper products, which throw nothing, so its catch block is dead and is not modelled. The `getInstance` call after it cannot fail either: sine and cosine lie in [-1, 1], so each product is bounded by the finite radius.
- The stale coordinate tests that call the private constructors and removed setters are not modelled.
- FootballModel.FootballType.HasInstance: it requires a ranking of the subtype graph, which exists exactly when the graph below the type has no cycle. With a cycle the Java recursion may not end (StackOverflowError), and that case is not modelled.
- FootballModel.Football.AddMultiplePlayerNames and RemoveMultiplePlayers take the names as a value. Passing a football's own live list is not modelled; in Java that may fail with ConcurrentModificationException, and where it does not (an empty list, or a two-name list whose iteration stops after the first removal) the effect differs from the value semantics.
- FootballPhoto.AddMultiplePlayerNames: passing the photo's own list is likewise not modelled.
- `FootballManager.getInstance` and the eager singleton are not modelled; the manager object is the static state.
- `FootballType.getSubTypesIterator`, the plain getters, `Location.java` and `FootballPhotoManager.java` are not modelled.
- FootballPhoto.NewFootballPhoto: the superclass constructor `Photo(id)` runs before the null check and is not part of this model.
