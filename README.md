# Beam equilibrium and Macaulay diagrams

A Dafny model of the engine of a small 2-D beam-analysis library, with proofs about that model. A `Beam` of a given length takes a list of loads:
- point loads;
- uniformly distributed loads (UDL);
- uniformly varying loads (UVL);
- point moments;
- supports (`Reaction`: roller, hinge or fixed);
- an optional internal `Hinge`.

The beam accumulates four static-equilibrium sums:
- `fx`: horizontal forces;
- `fy`: vertical forces;
- `m`: moments about a point;
- `m_hinge`: moments about the hinge of the loads on one side of it.

These sums are linear in the unknown reactions. They are handed to a solver, and the solved values are written back onto the supports. The beam then builds the Macaulay (singularity-function) equations of the shear force and the bending moment.

The model covers three source files:
- the current version, `src/beam/beam.py`;
- the first version, `Simply_Supported_Beam/beam.py`, which has no UVL and no hinge, solves three equations and raises `NameError` for a bad support type;
- the singularity function `src/beamframe/SingularityFunction.py`.

Modules, one per file:
- `Outcomes`: `Result`/`Option` and the exceptions the code raises.
- `Singularity`: `SingularityFunction(x, a, n)`.
- `LinearForms`: the symbolic sums, as a constant plus a map from unknowns to coefficients. The map never holds a zero coefficient, so equal expressions are equal values, as sympy's canonical forms are.
- `Loads`: the load constructors as functions. `Reaction` is a class, because `calculate_reactions` writes the solved values onto it.
- `Equilibrium`: what each element adds to each sum, and the sums over a list, with reference definitions and laws.
- `Diagrams`: the Macaulay terms of each element, their evaluation, and how they relate to the sums.
- `Reactions`: collecting the unknowns and writing the answer back.
- `BeamModel`: the current `Beam` class.
- `DraftBeam`: the first version's `Beam` class.
- `HingeCut`: the as-written UDL and UVL tests of `add_hinge`.
- `Scenarios`: two worked beams from the repository's example scripts.

Python floats and sympy Floats are modelled as exact Dafny `real`s; rounding is not modelled.

`sympy.solve` is not modelled. Its answer is a parameter `sol: map<Unknown, real>` that must name every unknown of the supports handed over. `calculate_reactions` (and `fast_solve`) require that `sol` makes every equation handed to the solver vanish, which is what the solver returns: fx, fy, m and m_hinge, or fx, fy and m in the first version.

## Model

| member | source | states |
|---|---|---|
| Singularity.Sing | src/beamframe/SingularityFunction.py:5-25 | exponents below -2 and only those are a ValueError, raised before the sign of x - a is looked at |
| Singularity.SingBelowOrigin | src/beamframe/SingularityFunction.py:19-20 | for an allowed exponent the value is 0 whenever x < a |
| Singularity.SingPointExponents | src/beamframe/SingularityFunction.py:21-23 | exponents -2 and -1 give 0 everywhere |
| Singularity.SingPower | src/beamframe/SingularityFunction.py:24-25 | for x >= a and n >= 0 the value is (x - a)^n |
| Singularity.SingAtOrigin | src/beamframe/SingularityFunction.py:24-25 | at x = a the value is 1 for n = 0 (Python's 0**0) and 0 for n > 0 |
| Singularity.UnitStep | src/beamframe/SingularityFunction.py:19-25 | n = 0 is the unit step: 0 below a, 1 from a on |
| Singularity.Translation | src/beamframe/SingularityFunction.py:9-25 | shifting x and a by the same amount changes nothing, errors included |
| Singularity.BracketNonNegative | src/beamframe/SingularityFunction.py:19-25 | for n >= 0 the value is never negative |
| Loads.NewLoad | src/beam/beam.py:453-459 | Load keeps pos and inverted and stores the load negated exactly when inverted |
| Loads.NewPointLoad | src/beam/beam.py:476-484 | PointLoad has Load's signed load, and load_x, load_y are that load times the given cosine and sine |
| Loads.PointLoadInversion | src/beam/beam.py:476-484 | inverting a point load negates both load_x and load_y |
| Loads.PointLoadVertical | src/beam/beam.py:476-484 | at the default 90 degrees there is no load_x and load_y is the signed load |
| Loads.NewUdl | src/beam/beam.py:502-513 | UDL keeps start, span and inverted, and its loadpm is negated exactly when inverted (default true) |
| Loads.UdlFields | Simply_Supported_Beam/beam.py:262-273 | end = start + span, netload = loadpm * span, the resultant position (pos, netpos in the first version) is start + span/2, and it lies within the load for a non-negative span |
| Loads.UdlInversion | src/beam/beam.py:506-513 | inverting a UDL negates loadpm and netload and leaves its position alone |
| Loads.NewUvl | src/beam/beam.py:539-569 | a zero span or startload + endload = 0 is a ZeroDivisionError and nothing else is; otherwise start, span and end follow the inputs, both end loads are negated when inverted, and gradient, tload, rload, netload and pos are the gradient, triangular part, rectangular part, resultant and resultant position of the signed end loads |
| Loads.ResultantZero | src/beam/beam.py:562-569 | for a non-zero span the resultant is 0 exactly when the end loads cancel |
| Loads.UvlParts | src/beam/beam.py:553-569 | with end loads of one sign, tload + rload = abs(netload) and start <= pos <= end |
| Loads.PartsSum | src/beam/beam.py:556-562 | the triangular and rectangular parts add up to the size of the resultant when the end loads agree in sign |
| Loads.PosWithin | src/beam/beam.py:564-569 | the resultant position of a same-sign UVL lies on the loaded span |
| Loads.FirstMoment | src/beam/beam.py:564-569 | netload * (pos - start) is the first moment of the load about its start, span^2 * (w0 + 2 w1) / 6 |
| Loads.UvlInversion | src/beam/beam.py:539-569 | inverting a UVL negates startload, endload, gradient and netload and leaves tload, rload and pos alone |
| Loads.NewPointMoment | src/beam/beam.py:623-629 | the moment is stored as given when ccw and negated otherwise |
| Loads.NewHinge | src/beam/beam.py:646-652 | only l, left, r and right in any case are accepted (else ValueError) and the side is stored lower-cased |
| Loads.HingeSide | src/beam/beam.py:646-652 | an accepted side starts with l exactly when it was l or left |
| Loads.HingeCaseInsensitive | src/beam/beam.py:646-652 | the case of the side string makes no difference |
| Loads.ParseSupport | src/beam/beam.py:595-607 | anything but the six type names is a ValueError naming the lower-cased type |
| Loads.ParseSupportNames | src/beam/beam.py:595-607 | roller/r give a roller, hinge/h a pin and fixed/f a fixed support, in both directions |
| Loads.ParseSupportCaseInsensitive | src/beam/beam.py:595 | the case of the type string makes no difference |
| Loads.SupportUnknowns | src/beam/beam.py:596-605 | a roller carries Y only, a pin X and Y, a fixed support X, Y and M, all named after the support |
| Loads.SymbolNameInjective | src/beam/beam.py:597-605 | distinct unknowns get distinct sympy symbol names (R_A_x, R_A_y, M_A) |
| Loads.Reaction.constructor | src/beam/beam.py:588-594 | a new support starts with rx_val, ry_val and mom_val all 0 |
| Loads.NewReaction | src/beam/beam.py:588-607 | Reaction succeeds exactly for a known type, stores it lower-cased and starts every value at 0 |
| Loads.SupportsMembers | src/beam/beam.py:323 | the support sub-list of fast_solve holds exactly the supports of the load list |
| Equilibrium.FxTotal | src/beam/beam.py:89-105 | fx is the sum of the point loads' load_x plus, per X unknown, one for every hinge or fixed support carrying it |
| Equilibrium.FyTotal | src/beam/beam.py:89-105 | fy is the point loads' load_y plus the UDL and UVL netloads plus every support's Y unknown |
| Equilibrium.ForceSumsIgnore | src/beam/beam.py:89-105 | point moments, hinges and plain loads leave fx and fy unchanged |
| Equilibrium.TotalPermutation | src/beam/beam.py:89-133 | every sum is independent of the order of the load list |
| Equilibrium.OnSideOf | src/beam/beam.py:153-158 | the side list holds exactly the elements strictly on the side the hinge names, each as often as in the load list |
| Equilibrium.OnSideOrder | src/beam/beam.py:153-158 | two elements on the side keep their order from the load list |
| Equilibrium.HingeTotal | src/beam/beam.py:161-184 | m_hinge is the moment about the hinge of exactly the elements strictly on its side |
| Equilibrium.AtHingeNothing | src/beam/beam.py:153-158 | an element at the hinge position is on neither side and adds nothing |
| Equilibrium.MomentShift | src/beam/beam.py:121-133 | under any answer, the moment about a equals the moment about 0 minus a times fy |
| Equilibrium.MomentAnywhere | src/beam/beam.py:121-133 | when fy and the moment about 0 vanish, the moment about every point vanishes |
| Reactions.UnknownListLength | src/beam/beam.py:221-226 | the unknown list has one entry per roller, two per pin and three per fixed support |
| Reactions.UnknownListMembers | src/beam/beam.py:221-226 | an unknown is in the list exactly when some listed support carries it |
| Reactions.CollectUnknowns | src/beam/beam.py:221-226 | the loop builds, per support in order, its X, Y and M unknowns where present |
| Reactions.WriteBack | src/beam/beam.py:232-237 | every component a support carries holds its solved value and every other component stays 0 |
| Diagrams.ShearBelow | src/beam/beam.py:291-308 | the shear equation is 0 left of every load and support |
| Diagrams.MomentBelow | src/beam/beam.py:250-274 | the moment equation is 0 left of every load and support |
| Diagrams.UdlShearPast | src/beam/beam.py:298-303 | from its end to the end of the beam a UDL contributes exactly its netload to the shear |
| Diagrams.UdlMomentPast | src/beam/beam.py:264-269 | from its end on a UDL contributes netload * (x - pos) to the moment |
| Diagrams.UvlShearPast | src/beam/beam.py:305-308 | from its end on a UVL contributes exactly its netload to the shear |
| Diagrams.UvlMomentPast | src/beam/beam.py:271-274 | from its end on a UVL with end loads of one sign contributes netload * (x - pos) to the moment |
| Diagrams.UvlMomentBalanced | src/beam/beam.py:271-274 | the same for every UVL whose pos balances the first moment of the load |
| Diagrams.UvlMixedSign | src/beam/beam.py:564-569 | with end loads 3 and -5 the computed pos is 125/3, outside the load, and the moment terms are not netload * (x - pos) |
| Diagrams.ShearAtEnd | src/beam/beam.py:291-308 | at x = length the shear equation is fy with the solved reactions substituted |
| Diagrams.MomentAtEnd | src/beam/beam.py:250-274 | at x = length the moment equation is minus the moment sum about the end under the solved reactions |
| Diagrams.DiagramsClose | src/beam/beam.py:250-308 | when fy and m vanish under the answer, shear and moment are both 0 at the end of the beam |
| BeamModel.LastHinge | src/beam/beam.py:322-325 | fast_solve's hinge is a hinge of the list with no hinge after it, and there is none exactly when the list holds no hinge |
| BeamModel.Closes | src/beam/beam.py:322-334 | with the sums of a fresh beam solved, both diagrams return to 0 at the end |
| BeamModel.Beam.constructor | src/beam/beam.py:54-75 | a new beam holds the length, all four sums 0, no answer and no equations |
| BeamModel.Beam.AddLoads | src/beam/beam.py:77-105 | fx and fy gain the horizontal and vertical sums of the list, and nothing else changes |
| BeamModel.Beam.AddMoments | src/beam/beam.py:107-133 | m gains the moment sum of the list about `about` (default 0), and nothing else changes |
| BeamModel.Beam.AddHinge | src/beam/beam.py:135-198 | anything but a hinge is a ValueError naming its class; a hinge adds the moment of the elements on its side to m_hinge and changes nothing else |
| BeamModel.Beam.CalculateReactions | src/beam/beam.py:206-237 | given an answer that makes fx, fy, m and m_hinge vanish, the unknowns are collected in order, the answer is stored, every support is written back and the sums are untouched |
| BeamModel.Beam.GenerateShearEquation | src/beam/beam.py:280-312 | the shear equation is the shear terms of every element in list order |
| BeamModel.Beam.GenerateMomentEquation | src/beam/beam.py:239-278 | the moment equation is the moment terms of every element in list order |
| BeamModel.Beam.AddSums | src/beam/beam.py:331-333 | add_loads, add_moments about 0 and, given a hinge, add_hinge, over the same list |
| BeamModel.Beam.FastSolve | src/beam/beam.py:314-334 | the same sums, a hinge equation for the last hinge, an answer that solves all four summed equations written back, and both equations over the list |
| BeamModel.Beam.SolveAndGenerate | src/beam/beam.py:332-334 | an answer to the four equations is stored and written onto the supports of the list, then both equations are generated |
| BeamModel.Beam.GenerateEquations | src/beam/beam.py:333-334 | the shear and then the moment equation over the list, with sums and answer untouched |
| BeamModel.Gather | src/beam/beam.py:322-325 | the supports of the list in order, and its last hinge |
| BeamModel.SupportsNamed | src/beam/beam.py:323 | every support handed to the solver is named by a covering answer |
| BeamModel.SupportsListed | src/beam/beam.py:323 | every support in the load list is in the solver's list |
| BeamModel.SolvedBeamCloses | src/beam/beam.py:314-334 | after fast_solve on a fresh beam whose stored answer solves its equations, the shear and the moment at the end of the beam are 0 |
| DraftBeam.ParseDraftSupport | Simply_Supported_Beam/beam.py:295-306 | anything but the six type names is a NameError naming the lower-cased type |
| DraftBeam.DraftSupportAgrees | Simply_Supported_Beam/beam.py:295-306 | both versions accept the same type strings with the same kinds; they differ only in NameError against ValueError, with the same message |
| DraftBeam.NewDraftReaction | Simply_Supported_Beam/beam.py:288-306 | the first version's Reaction succeeds exactly for a known type and starts every value at 0 |
| DraftBeam.Beam.constructor | Simply_Supported_Beam/beam.py:47-64 | a new beam holds the length, three sums 0, no answer and no equations |
| DraftBeam.Beam.AddLoads | Simply_Supported_Beam/beam.py:78-91 | fx and fy gain the horizontal and vertical sums of the list, and nothing else changes |
| DraftBeam.Beam.AddMoments | Simply_Supported_Beam/beam.py:107-117 | m gains the moment sum about `about`, using netpos for a UDL, and nothing else changes |
| DraftBeam.Beam.CalculateReactions | Simply_Supported_Beam/beam.py:129-147 | given an answer that makes fx, fy and m vanish, the unknowns are collected in order, the answer is stored and written back |
| DraftBeam.Beam.GenerateMomentEquation | Simply_Supported_Beam/beam.py:160-177 | the moment equation is the moment terms of every element in order |
| DraftBeam.Beam.GenerateShearEquation | Simply_Supported_Beam/beam.py:190-201 | the shear equation is the shear terms of every element in order |
| DraftBeam.DraftCloses | Simply_Supported_Beam/beam.py:78-201 | after both sums and both equations with a balancing answer, shear and moment are 0 at the end of the beam |
| HingeCut.UdlAtOriginIsCut | src/beam/beam.py:173 | the cut test passes for a UDL starting at 0 whenever the hinge lies right of its end |
| HingeCut.UdlHingeCounterexample | src/beam/beam.py:172-181 | a UDL left of the hinge that does not reach it adds -100 as written instead of its moment 160 |
| HingeCut.UvlCutTestNever | src/beam/beam.py:188 | the UVL cut test never passes on non-negative integer positions |
| Scenarios.CentralValues | tests/test_pointload.py:3-16 | a 10 m beam with 10 kN at midspan and 5 kN written onto each support has shear +5 then -5, a moment of 25 under the load and 0 at the far end |
| Scenarios.CantileverValues | Simply_Supported_Beam/test_cantilever.py:5-17 | the 20 m cantilever has root shear 150 and zero shear and moment at its free end |
| Scenarios.ClosedAtEnd | src/beam/beam.py:250-308 | the converse of DiagramsClose: when shear and moment are both 0 at the end of the beam, fy and the moment about 0 vanish |
| Scenarios.CentralBalanced | tests/test_pointload.py:3-16 | the reactions 5, 0, 5 make fx, fy and the moment about 0 of the central-load beam vanish |
| Scenarios.CantileverBalanced | Simply_Supported_Beam/test_cantilever.py:5-17 | the reactions 0, 150, 1750 make fx, fy and the moment about 0 of the cantilever vanish |

## Left out

- The mechanics of `sympy.solve` (src/beam/beam.py:230, Simply_Supported_Beam/beam.py:141): the answer is a parameter naming every unknown and is required to make the equations vanish. Solutions that stay symbolic, and the indexing error of a failed solve, are not modelled.
- `sympy.lambdify` and `numpy.vectorize`: an equation is a sequence of terms, evaluated by summing singularity functions.
- A second `generate_*` call on the same beam fails with a TypeError, because the field already holds a vectorised function. The generate methods therefore require that no equation has been generated yet.
- `generate_graph`, all matplotlib code and every `print`: output only.
- The `E`, `I` and `supports` keyword arguments: they are stored but never used.
- `save_data` and `setup.py` are not part of this model.
- Loads.ParseSupport: case mapping (`Lower`, `Upper`) covers the ASCII letters only, where Python's `str.lower()` maps all of Unicode. The accepted type names are the same, but the ValueError message for a non-ASCII type keeps its non-ASCII capitals (for "Ä" the code reports "ä" and the model "Ä"). Loads.NewReaction and DraftBeam.ParseDraftSupport share this; a hinge side is accepted and stored alike, because no non-ASCII character lower-cases into one of the accepted names.
- Loads.NewPointLoad: the cosine and sine of the inclination are parameters, and the rounding to 4 digits is not modelled. These are floating point.
- `UVL.zero_load`: the engine never reads it.
- Floating point: positions and loads are Python floats in the code (`UDL.pos`, the rounded `load_x`/`load_y`, the UVL fields computed by division), so fx, fy, m, m_hinge, the solver's answer and the lambdified diagrams carry rounding. The model computes every one of them on exact reals, and its equalities (sums vanishing, diagrams closing at the end) hold exactly where the code's hold only up to rounding.
- BeamModel.Beam.AddHinge: it requires that no UDL or UVL on the hinge's side reaches across the hinge (`HingeReady`), so the cutting branches of `add_hinge` are not modelled.
  - These branches build the left piece with span `hinge.pos - end`, which is negative.
  - They rebuild the signed intensity with the default `inverted=True`, which flips it back.
  - Their tests mis-parse, because `&` binds tighter than `<` and `>`. The UDL test at line 173 is recorded under Findings.
  - The UVL test at line 188 asks start < (hinge.pos & end) > hinge.pos. On non-negative integer positions it never passes (`HingeCut.UvlCutTestNever`), so the UVL cut branch (lines 189-196) is dead there and every UVL on the side adds its whole moment.
  - On float positions both tests apply `&` to floats and raise a TypeError, so `add_hinge` fails for any UDL or UVL on the hinge's side. The model does not capture this error.
  - For a UDL or UVL that does not reach across the hinge the model adds the whole load, which is what the code intends. The code does the same on some integer positions, for example a UDL over [6, 14] right of a hinge at 6. On other integer positions the UDL test passes wrongly (see Findings), and on float positions, for UDL and UVL alike, the code raises a TypeError instead.
- The second `Reaction` branch of `add_hinge` (lines 200-204) is unreachable and has no counterpart.
- Diagrams.UvlMomentPast: it holds only for end loads of one sign. For opposite signs the computed `pos` is not where the resultant acts (`UvlMixedSign`).
- Loads.UvlParts: stated for end loads of one sign, as the docstring's identity is.
- `fast_solve` with a hinge in the list whose side the `Hinge` constructor would reject is excluded by `HingeReady`.
- DraftBeam.Beam.AddLoads: the first version knows no UVL or Hinge class, so its methods require lists of first-version element kinds (`DraftElements`). Its `if` chain without `elif` behaves like the current `elif` chain because the classes are disjoint.
- Scenarios.CentralValues: stated on the diagram functions for reactions written back, not on a run of the beam's methods.
- Scenarios.CantileverValues: the same. The fixed-end moment follows the code's convention: M_A = +1750 counter-clockwise.
- Scenarios.CentralBalanced: the reactions are given as values (also in Scenarios.CantileverBalanced); the model checks that they balance and does not derive them by solving.

## Findings

| source | as written | input that shows it | evidently intended | confidence | as-written member | corrected member |
|---|---|---|---|---|---|---|
| src/beam/beam.py:173 | the straddle test uses `&`, which binds tighter than `<` and `>`, so it asks end > (hinge.pos & start) < hinge.pos. On float positions it raises a TypeError; on integers it is bit logic. | a hinge at 6 (side l) and the default 10 kN/m UDL over [0, 4]: the test passes, a cut UDL of span 2 with the sign flipped is used, and m_hinge gains -100 | a logical `and`: a UDL that does not reach the hinge adds its whole moment about the hinge, (2 - 6) * (-40) = 160 | high; not executed | HingeCut.UdlHingeCounterexample | BeamModel.Beam.AddHinge |
