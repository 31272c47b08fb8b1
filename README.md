# Length of a circular train

This project models the `CalculateLength` class of the Train repository and proves it correct.
The puzzle: a train's wagons form a ring of unknown size N ≥ 1. Each wagon has a lamp that is on or off.
The calculator finds N using only four operations: step to the next wagon, step to the previous wagon, read a lamp, and switch a lamp.

The algorithm works as follows:

1. It lights wagon 0.
2. It scans in the current direction, counting moves, until it reaches a lit wagon. The count becomes `length`.
3. It switches that wagon's lamp off.
4. It walks `length` wagons the other way, back to where the scan started.
5. If that wagon's lamp is now off, `length` is the answer. Otherwise it reverses the direction and scans again.

The result is memoised: `getLength` computes it only while the stored `length` is 0 and a train is present.

The project has three modules.

- `Ring` (`ring.dfy`) is pure. It covers positions on a ring of `n` wagons:
  - one move (`Step`) and `k` moves (`Walk`);
  - the distance from one wagon to another in one direction (`Gap`);
  - the number of lit lamps (`LitCount`);
  - what a scan means (`ScanStops`).
  The lemmas prove that moves are inverse to each other, that a walk of at most N moves is c ± k wrapped once round the ring, and what each pass of the calculation does to the lamps.
- `Trains` (`train.dfy`) models the train. The source's train and wagon types are not part of this model, so the train is a class with a fixed array of lamps and a `cursor` field. Next is `(cursor + 1) % N` and previous is `(cursor + N - 1) % N`. A wagon is identified by its position on the ring.
- `Algorithm` (`calculate_length.dfy`) holds the class `CalculateLength`. It has the nullable `train`, the memoised `length` and the scan `direction`. Its methods follow the Java loops one for one.

Main results:

- `Calculate` ends with `length == N` and every lamp off, whatever the lamps were at the start.
- It scans exactly `1 + (number of lamps initially on, other than wagon 0)` times.
- The direction alternates between scans, and the first scan goes backward.
- `GetLength` returns 0 without a train. After a calculation it returns the stored value and changes nothing.

The calculation needs the cursor on wagon 0 when it starts. The source fetches wagon 0 with `getWagon(0)` and then moves relative to the cursor. In this model, fetching a wagon by index does not move the cursor. So `GetLength` and `Calculate` require the cursor to be on wagon 0 when a calculation will run. If the cursor started on another wagon `c`, the first return walk would land on `c`, not on wagon 0. With all lamps off, that wagon is dark, so the result would be the backward distance from `c` to wagon 0, not N.

The return walk goes against the scan direction: `getPreviousWagon` after a forward scan and `getNextWagon` after a backward one (CalculateLength.java lines 114-121). The first scan goes backward, because `direction` starts as `false` (line 33, lines 93-99).

## Model

| member | source | states |
|---|---|---|
| Trains.Train.GetWagon | src/main/java/com/salimov/yurii/algoritm/CalculateLength.java:73 | fetching wagon 0 by index gives wagon 0 and does not move the cursor |
| Trains.Train.GetCurrentWagon | src/main/java/com/salimov/yurii/algoritm/CalculateLength.java:77 | the current wagon is the one under the cursor |
| Trains.Train.GetNextWagon | src/main/java/com/salimov/yurii/algoritm/CalculateLength.java:94 | the cursor moves one wagon forward round the ring, and the new current wagon is returned |
| Trains.Train.GetPreviousWagon | src/main/java/com/salimov/yurii/algoritm/CalculateLength.java:98 | the cursor moves one wagon backward round the ring, and the new current wagon is returned |
| Trains.Train.LampState | src/main/java/com/salimov/yurii/algoritm/CalculateLength.java:79 | whether the lamp of wagon w is on; reading it changes nothing, and a lamp seen on means the train has a lit lamp |
| Trains.Train.OnLamp | src/main/java/com/salimov/yurii/algoritm/CalculateLength.java:74 | the wagon's lamp is switched on and no other lamp changes |
| Trains.Train.OffLamp | src/main/java/com/salimov/yurii/algoritm/CalculateLength.java:77 | the wagon's lamp is switched off and no other lamp changes |
| Ring.StepMod | src/main/java/com/salimov/yurii/algoritm/CalculateLength.java:94-100 | a move is +1 or -1 modulo N: forward from the last wagon is wagon 0, backward from wagon 0 is the last wagon |
| Ring.StepInverse | src/main/java/com/salimov/yurii/algoritm/CalculateLength.java:114-121 | a move forward then a move backward, or the reverse, returns to the same wagon |
| Ring.WalkInverse | src/main/java/com/salimov/yurii/algoritm/CalculateLength.java:111-127 | walking k wagons one way and then k wagons the other way returns to the start, for every k |
| Ring.WalkClosed | src/main/java/com/salimov/yurii/algoritm/CalculateLength.java:94-100 | the wagon reached after at most N moves is c + k or c - k, wrapped once round the ring |
| Ring.WalkGap | src/main/java/com/salimov/yurii/algoritm/CalculateLength.java:94-100 | within one turn, a scan from c reaches wagon t exactly after Gap(c, t) moves; it reaches its own start only after N moves |
| Ring.WalkFullTurn | src/main/java/com/salimov/yurii/algoritm/CalculateLength.java:94-100 | N moves in either direction bring the cursor back to its start |
| Ring.ScanStopsWithinGap | src/main/java/com/salimov/yurii/algoritm/CalculateLength.java:91-103 | a scan's count is at most the distance to any lit wagon; while wagon 0 is lit and the scan starts there, this is at most N |
| Ring.LitCount | src/main/java/com/salimov/yurii/algoritm/CalculateLength.java:74-79 | the lit-lamp count is at most N, and it is 0 exactly when every lamp is off |
| Ring.LitCountClear | src/main/java/com/salimov/yurii/algoritm/CalculateLength.java:77 | switching off a lit lamp lowers the lit count by exactly one, which is the outer loop's termination measure |
| Ring.PassOutcome | src/main/java/com/salimov/yurii/algoritm/CalculateLength.java:75-83 | for a pass from a lit wagon 0: clearing the stop lamp turns exactly one lamp off; the scan stops at wagon 0 exactly when its count is N; and then every other wagon is dark |
| Algorithm.AlternateParity | src/main/java/com/salimov/yurii/algoritm/CalculateLength.java:82 | after an even number of reversals the direction is the initial one, and after an odd number it is the opposite |
| Algorithm.CalculateLength.constructor | src/main/java/com/salimov/yurii/algoritm/CalculateLength.java:41-43 | a new calculator holds the given, possibly absent, train; its length is 0 (not computed) and its direction is backward |
| Algorithm.CalculateLength.GetLength | src/main/java/com/salimov/yurii/algoritm/CalculateLength.java:61-67 | no train: returns 0 and changes nothing; length already computed: returns it and changes nothing; otherwise (cursor on wagon 0) returns N, leaves all lamps off and the cursor on wagon 0 |
| Algorithm.CalculateLength.Calculate | src/main/java/com/salimov/yurii/algoritm/CalculateLength.java:72-84 | terminates with length == N, every lamp off and the cursor on wagon 0; runs exactly 1 + (lamps initially on other than wagon 0) passes; the direction is reversed after every pass but the last |
| Algorithm.CalculateLength.GetInDirection | src/main/java/com/salimov/yurii/algoritm/CalculateLength.java:91-103 | while some lamp is on: length becomes the number of moves, in the current direction, to the first lit wagon; it is between 1 and N, the cursor ends on that lit wagon, and every wagon passed is dark |
| Algorithm.CalculateLength.MoveToStartWagon | src/main/java/com/salimov/yurii/algoritm/CalculateLength.java:111-127 | walks length wagons against the direction and returns the wagon reached; with length 0 it returns the current wagon without moving |
| Algorithm.MeasureTwice | src/main/java/com/salimov/yurii/algoritm/CalculateLength.java:61-67 | for a train of any size and any lamps, with the cursor on wagon 0, the first call returns the number of wagons and leaves every lamp off; the second call returns the same value |
| Algorithm.MeasureNoTrain | src/main/java/com/salimov/yurii/algoritm/CalculateLength.java:62-66 | without a train the length is 0 |

`MoveToStartWagon` keeps the source's `length == 0` branch (lines 123-125). That branch is unreachable from `Calculate`, because `GetInDirection` always leaves `length` at 1 or more.

## Left out

- `getTrain` (lines 51-54): a plain getter of the constructor argument, kept only as the `train` field.
- The train, wagon and calculator interfaces are not part of this model. They are replaced by the array-and-cursor class `Trains.Train`. Only the operations the calculator calls are modelled.
- Wagon identity: a wagon is its position on the ring. The source's wagon objects are not modelled as separate objects.
- Java `int` overflow of `length`: `length` is a `nat`, and it never exceeds N.
- Concurrent or external changes to the lamps or the cursor: the calculation assumes exclusive access, and the model gives the methods exclusive `modifies` frames.
- `MoveToStartWagon` starts with `null` in the source (line 112). With `length > 0` the loops always overwrite it. The model starts from the current wagon instead, and that value is never returned.
- The number of passes is a ghost out-parameter of `Calculate` (`passes`), so callers cannot read it. The source keeps no such count.
