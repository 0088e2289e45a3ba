/** The state the main loop keeps between iterations: the moving-average lists of
    the three accelerometer axes and the list of recent face indices, with the
    operations that fill, update and read them. */
module Tracker {
  import opened Maybe
  import opened Classifier
  import opened Windows
  import opened Colours

  /** One accelerometer reading `(x, y, z)`. */
  datatype Vec3 = Vec3(x: real, y: real, z: real)

  datatype Axis = X | Y | Z

  function Component(v: Vec3, a: Axis): real
  {
    match a
    case X => v.x
    case Y => v.y
    case Z => v.z
  }

  /** The tilt angles `(theta, phi)` in degrees. */
  datatype Tilt = Tilt(theta: real, phi: real)

  /** The number of entries of every list, `numAvgValues`. */
  const NumAvgValues: nat := 25

  /** Python's `sum` over a list of floats, added from the left. */
  function Sum(s: seq<real>): (total: real)
    ensures s == [] ==> total == 0.0
  {
    if s == [] then 0.0 else Sum(s[..|s| - 1]) + s[|s| - 1]
  }

  /** `sum(s) / len(s)`. */
  function Mean(s: seq<real>): real
    requires |s| >= 1
  {
    Sum(s) / |s| as real
  }

  /** The sum stays within n times the bounds of its terms. */
  lemma {:induction false} SumWithin(s: seq<real>, lo: real, hi: real)
    requires forall i | 0 <= i < |s| :: lo <= s[i] <= hi
    ensures |s| as real * lo <= Sum(s) <= |s| as real * hi
    decreases |s|
  {
    if s != [] {
      SumWithin(s[..|s| - 1], lo, hi);
    }
  }

  /** The moving average never leaves the range of the values it averages. */
  lemma MeanWithin(s: seq<real>, lo: real, hi: real)
    requires |s| >= 1
    requires forall i | 0 <= i < |s| :: lo <= s[i] <= hi
    ensures lo <= Mean(s) <= hi
  {
    SumWithin(s, lo, hi);
    var n := |s| as real;
    DivideMonotonic(n * lo, Sum(s), n);
    DivideMonotonic(Sum(s), n * hi, n);
    CancelCount(lo, n);
    CancelCount(hi, n);
  }

  /** Multiplying by a positive count and dividing by it again gives the value back. */
  lemma CancelCount(x: real, n: real)
    requires n > 0.0
    ensures (n * x) / n == x
  {
  }

  /** Dividing by a positive count keeps the order. */
  lemma DivideMonotonic(a: real, b: real, n: real)
    requires n > 0.0
    requires a <= b
    ensures a / n <= b / n
  {
    assert b / n - a / n == (b - a) / n;
  }

  /** The average of a list holding one value n times is that value. */
  lemma MeanOfSteady(s: seq<real>, c: real)
    requires |s| >= 1
    requires forall i | 0 <= i < |s| :: s[i] == c
    ensures Mean(s) == c
  {
    MeanWithin(s, c, c);
  }

  /** The values of a list that holds no None. */
  function Values(s: seq<Option<real>>): (r: seq<real>)
    requires None !in s
    ensures |r| == |s|
    ensures forall i | 0 <= i < |s| :: s[i] == Some(r[i])
  {
    assert forall i | 0 <= i < |s| :: s[i] in s && s[i].Some?;
    seq(|s|, i requires 0 <= i < |s| => s[i].value)
  }

  /** One axis of the first `count` sensor readings, as the lists store them. */
  function AxisHistory(sensor: nat -> Vec3, count: nat, a: Axis): seq<Option<real>>
  {
    seq(count, k requires 0 <= k < count => Some(Component(sensor(k), a)))
  }

  /** One axis of the last n of the first `count` readings. */
  function Recent(sensor: nat -> Vec3, count: nat, n: nat, a: Axis): seq<real>
    requires n <= count
  {
    seq(n, i requires 0 <= i < n => Component(sensor(count - n + i), a))
  }

  /** The moving average of the last n of the first `count` readings, axis by axis. */
  function Smoothed(sensor: nat -> Vec3, count: nat, n: nat): Vec3
    requires 1 <= n <= count
  {
    Vec3(Mean(Recent(sensor, count, n, X)), Mean(Recent(sensor, count, n, Y)),
         Mean(Recent(sensor, count, n, Z)))
  }

  /** The face `getDownwardFaceIndex` computes once `count` readings have been taken. */
  function FaceAfter(sensor: nat -> Vec3, tilt: Vec3 -> Tilt, count: nat, n: nat): (face: int)
    requires 1 <= n <= count
    ensures 0 <= face <= 6
  {
    var t := tilt(Smoothed(sensor, count, n));
    FaceIdx(t.theta, t.phi, AngleCheck)
  }

  /** A list that started as n Nones still holds a None exactly while fewer
      than n readings have been taken. */
  lemma NoneRemains(sensor: nat -> Vec3, n: nat, count: nat, a: Axis)
    requires n >= 1
    ensures None in Window(None, n, AxisHistory(sensor, count, a)) <==> count < n
  {
    var h := AxisHistory(sensor, count, a);
    assert forall k | 0 <= k < count :: h[k].Some?;
    FillRemains(None, n, h);
  }

  /** The three axis lists fill in lockstep: whenever one of them holds a None,
      all three do, so a guard that tests only some of them decides the same. */
  lemma AxesInLockstep(sensor: nat -> Vec3, n: nat, count: nat)
    requires n >= 1
    ensures None in Window(None, n, AxisHistory(sensor, count, Z))
        <==> None in Window(None, n, AxisHistory(sensor, count, X))
    ensures None in Window(None, n, AxisHistory(sensor, count, Z))
        <==> None in Window(None, n, AxisHistory(sensor, count, Y))
  {
    NoneRemains(sensor, n, count, X);
    NoneRemains(sensor, n, count, Y);
    NoneRemains(sensor, n, count, Z);
  }

  /** Once it holds no None, a list's values are the last n readings of its axis. */
  lemma WindowValues(sensor: nat -> Vec3, n: nat, count: nat, a: Axis)
    requires 1 <= n <= count
    ensures None !in Window(None, n, AxisHistory(sensor, count, a))
    ensures Values(Window(None, n, AxisHistory(sensor, count, a))) == Recent(sensor, count, n, a)
  {
    NoneRemains(sensor, n, count, a);
    WindowFull(None, n, AxisHistory(sensor, count, a));
  }

  /** One axis of readings that all were v holds v's component throughout. */
  lemma SteadyAxis(sensor: nat -> Vec3, count: nat, n: nat, v: Vec3, a: Axis)
    requires n <= count
    requires forall k | count - n <= k < count :: sensor(k) == v
    ensures forall i | 0 <= i < n :: Recent(sensor, count, n, a)[i] == Component(v, a)
  {
    forall i | 0 <= i < n
      ensures Recent(sensor, count, n, a)[i] == Component(v, a)
    {
      assert sensor(count - n + i) == v;
    }
  }

  /** Pushing a reading's component onto an axis list extends that axis's history. */
  lemma HistoryPush(sensor: nat -> Vec3, n: nat, count: nat, a: Axis)
    requires n >= 1
    ensures Window(None, n, AxisHistory(sensor, count + 1, a))
         == Push(Window(None, n, AxisHistory(sensor, count, a)), Some(Component(sensor(count), a)))
  {
    assert AxisHistory(sensor, count + 1, a)
        == AxisHistory(sensor, count, a) + [Some(Component(sensor(count), a))];
    WindowPush(None, n, AxisHistory(sensor, count, a), Some(Component(sensor(count), a)));
  }

  /** A sensor that read the same vector for the last n readings is smoothed to that vector. */
  lemma SteadySensorSmoothed(sensor: nat -> Vec3, count: nat, n: nat, v: Vec3)
    requires 1 <= n <= count
    requires forall k | count - n <= k < count :: sensor(k) == v
    ensures Smoothed(sensor, count, n) == v
  {
    SteadyAxis(sensor, count, n, v, X);
    SteadyAxis(sensor, count, n, v, Y);
    SteadyAxis(sensor, count, n, v, Z);
    MeanOfSteady(Recent(sensor, count, n, X), v.x);
    MeanOfSteady(Recent(sensor, count, n, Y), v.y);
    MeanOfSteady(Recent(sensor, count, n, Z), v.z);
  }

  /** While the cube is held still, every face computed is the classification
      of the steady reading's tilt. */
  lemma SteadySensorFace(sensor: nat -> Vec3, tilt: Vec3 -> Tilt, count: nat, n: nat, v: Vec3)
    requires 1 <= n <= count
    requires forall k | count - n <= k < count :: sensor(k) == v
    ensures FaceAfter(sensor, tilt, count, n) == FaceIdx(tilt(v).theta, tilt(v).phi, AngleCheck)
  {
    SteadySensorSmoothed(sensor, count, n, v);
  }

  /** The cube: its sensor (reading k is `sensor(k)`), the trigonometry of
      `getAccelTiltAngle` (`tilt`), the four lists and the pixel. */
  class FaceTracker {
    const numAvgValues: nat
    const sensor: nat -> Vec3
    const tilt: Vec3 -> Tilt

    /** How many readings `getSensorAccel` has taken. */
    var readCount: nat
    var listAccelX: seq<Option<real>>
    var listAccelY: seq<Option<real>>
    var listAccelZ: seq<Option<real>>
    var listFaceIdx: seq<int>
    /** The colour last written to the pixel. */
    var pixel: Colour
    /** Every face index computed so far, oldest first. */
    ghost var faces: seq<int>

    /** Each list is its initial contents after every value computed for it was pushed. */
    ghost predicate Valid()
      reads this
    {
      && numAvgValues >= 1
      && listAccelX == Window(None, numAvgValues, AxisHistory(sensor, readCount, X))
      && listAccelY == Window(None, numAvgValues, AxisHistory(sensor, readCount, Y))
      && listAccelZ == Window(None, numAvgValues, AxisHistory(sensor, readCount, Z))
      && listFaceIdx == Window(0, numAvgValues, faces)
      && (forall j | 0 <= j < |faces| :: 0 <= faces[j] <= 6)
    }

    /** The start-up code: every accelerometer list `[None] * numAvgValues`,
        the face list `[0] * numAvgValues`, the pixel off. */
    constructor (numAvgValues: nat, sensor: nat -> Vec3, tilt: Vec3 -> Tilt)
      requires numAvgValues >= 1
      ensures Valid()
      ensures this.numAvgValues == numAvgValues && this.sensor == sensor && this.tilt == tilt
      ensures readCount == 0 && faces == [] && pixel == Off
      ensures listAccelX == listAccelY == listAccelZ == seq(numAvgValues, _ => None)
      ensures listFaceIdx == seq(numAvgValues, _ => 0)
    {
      this.numAvgValues := numAvgValues;
      this.sensor := sensor;
      this.tilt := tilt;
      readCount := 0;
      listAccelX := seq(numAvgValues, _ => None);
      listAccelY := seq(numAvgValues, _ => None);
      listAccelZ := seq(numAvgValues, _ => None);
      listFaceIdx := seq(numAvgValues, _ => 0);
      pixel := Off;
      faces := [];
      new;
      assert AxisHistory(sensor, 0, X) == [];
      assert AxisHistory(sensor, 0, Y) == [];
      assert AxisHistory(sensor, 0, Z) == [];
    }

    /** The program's start-up: a tracker whose lists have `NumAvgValues` (25) entries. */
    static method Start(sensor: nat -> Vec3, tilt: Vec3 -> Tilt) returns (t: FaceTracker)
      ensures fresh(t) && t.Valid()
      ensures t.numAvgValues == NumAvgValues && t.sensor == sensor && t.tilt == tilt
      ensures t.readCount == 0 && t.faces == [] && t.pixel == Off
      ensures t.listAccelX == t.listAccelY == t.listAccelZ == seq(NumAvgValues, _ => None)
      ensures t.listFaceIdx == seq(NumAvgValues, _ => 0)
    {
      t := new FaceTracker(NumAvgValues, sensor, tilt);
    }

    /** `updateAccelList`: take one reading and push its axes onto the three lists. */
    method UpdateAccelList()
      requires Valid()
      modifies this`readCount, this`listAccelX, this`listAccelY, this`listAccelZ
      ensures Valid()
      ensures readCount == old(readCount) + 1
      ensures listAccelX == Push(old(listAccelX), Some(sensor(old(readCount)).x))
      ensures listAccelY == Push(old(listAccelY), Some(sensor(old(readCount)).y))
      ensures listAccelZ == Push(old(listAccelZ), Some(sensor(old(readCount)).z))
    {
      var v := sensor(readCount);
      listAccelX := listAccelX[1..];
      listAccelY := listAccelY[1..];
      listAccelZ := listAccelZ[1..];
      listAccelX := listAccelX + [Some(v.x)];
      listAccelY := listAccelY + [Some(v.y)];
      listAccelZ := listAccelZ + [Some(v.z)];
      HistoryPush(sensor, numAvgValues, readCount, X);
      HistoryPush(sensor, numAvgValues, readCount, Y);
      HistoryPush(sensor, numAvgValues, readCount, Z);
      readCount := readCount + 1;
    }

    /** `preallocateAccelList`: update until no list holds a None. The loop
        tests X, Y and Y again; Z fills in step with them. */
    method Preallocate()
      requires Valid()
      modifies this`readCount, this`listAccelX, this`listAccelY, this`listAccelZ
      ensures Valid()
      ensures readCount == if old(readCount) < numAvgValues then numAvgValues else old(readCount)
      ensures None !in listAccelX && None !in listAccelY && None !in listAccelZ
    {
      while None in listAccelX || None in listAccelY || None in listAccelY
        invariant Valid()
        invariant old(readCount) <= readCount
        invariant old(readCount) < numAvgValues ==> readCount <= numAvgValues
        invariant old(readCount) >= numAvgValues ==> readCount == old(readCount)
        decreases numAvgValues - readCount
      {
        NoneRemains(sensor, numAvgValues, readCount, X);
        NoneRemains(sensor, numAvgValues, readCount, Y);
        UpdateAccelList();
      }
      NoneRemains(sensor, numAvgValues, readCount, X);
      AxesInLockstep(sensor, numAvgValues, readCount);
    }

    /** `getSmoothedAccel`: fill the lists on first use, take one more reading,
        and average each list. */
    method SmoothedAccel() returns (v: Vec3)
      requires Valid()
      modifies this`readCount, this`listAccelX, this`listAccelY, this`listAccelZ
      ensures Valid()
      ensures readCount == (if old(readCount) < numAvgValues then numAvgValues else old(readCount)) + 1
      ensures v == Smoothed(sensor, readCount, numAvgValues)
    {
      Preallocate();
      UpdateAccelList();
      WindowValues(sensor, numAvgValues, readCount, X);
      WindowValues(sensor, numAvgValues, readCount, Y);
      WindowValues(sensor, numAvgValues, readCount, Z);
      var x := Sum(Values(listAccelX)) / |listAccelX| as real;
      var y := Sum(Values(listAccelY)) / |listAccelY| as real;
      var z := Sum(Values(listAccelZ)) / |listAccelZ| as real;
      v := Vec3(x, y, z);
    }

    /** `getDownwardFaceIndex`: classify the tilt of the smoothed reading with
        tolerance 20. */
    method DownwardFaceIndex() returns (face: int)
      requires Valid()
      modifies this`readCount, this`listAccelX, this`listAccelY, this`listAccelZ
      ensures Valid()
      ensures readCount == (if old(readCount) < numAvgValues then numAvgValues else old(readCount)) + 1
      ensures face == FaceAfter(sensor, tilt, readCount, numAvgValues)
      ensures 0 <= face <= 6
    {
      var v := SmoothedAccel();
      var t := tilt(v);
      face := FaceIdx(t.theta, t.phi, AngleCheck);
    }

    /** `updateFaceIdx`: push the current face onto the face list. */
    method UpdateFaceIdx()
      requires Valid()
      modifies this`readCount, this`listAccelX, this`listAccelY, this`listAccelZ
      modifies this`listFaceIdx, this`faces
      ensures Valid()
      ensures readCount == (if old(readCount) < numAvgValues then numAvgValues else old(readCount)) + 1
      ensures faces == old(faces) + [FaceAfter(sensor, tilt, readCount, numAvgValues)]
      ensures listFaceIdx == Push(old(listFaceIdx), faces[|faces| - 1])
    {
      var f := DownwardFaceIndex();
      listFaceIdx := listFaceIdx[1..];
      listFaceIdx := listFaceIdx + [f];
      WindowPush(0, numAvgValues, faces, f);
      faces := faces + [f];
    }

    /** `getSmoothedFaceIdx`: update the face list, then report its face if all
        its entries agree and 0 otherwise. A nonzero face has been computed on
        each of the last numAvgValues updates, and such a run is always reported. */
    method SmoothedFaceIdx() returns (face: int)
      requires Valid()
      modifies this`readCount, this`listAccelX, this`listAccelY, this`listAccelZ
      modifies this`listFaceIdx, this`faces
      ensures Valid()
      ensures readCount == (if old(readCount) < numAvgValues then numAvgValues else old(readCount)) + 1
      ensures faces == old(faces) + [FaceAfter(sensor, tilt, readCount, numAvgValues)]
      ensures face == Stable(listFaceIdx)
      ensures 0 <= face <= 6
      ensures face != 0 ==>
        |faces| >= numAvgValues && forall i | |faces| - numAvgValues <= i < |faces| :: faces[i] == face
      ensures var last := faces[|faces| - 1];
        (last != 0 && |faces| >= numAvgValues &&
         forall i | |faces| - numAvgValues <= i < |faces| :: faces[i] == last) ==> face == last
    {
      UpdateFaceIdx();
      if !(forall i | 0 <= i < |listFaceIdx| :: listFaceIdx[i] == listFaceIdx[0]) {
        face := 0;
      } else {
        face := listFaceIdx[0];
      }
      WindowAt(0, numAvgValues, faces, 0);
      if face != 0 {
        StableWindow(numAvgValues, faces, face);
      }
      if faces[|faces| - 1] != 0 {
        StableWindow(numAvgValues, faces, faces[|faces| - 1]);
      }
    }

    /** One iteration of the main loop: compute the smoothed face, then write
        its colour, dimmed to the global brightness, to the pixel. */
    method Step() returns (face: int)
      requires Valid()
      modifies this`readCount, this`listAccelX, this`listAccelY, this`listAccelZ
      modifies this`listFaceIdx, this`faces, this`pixel
      ensures Valid()
      ensures readCount == (if old(readCount) < numAvgValues then numAvgValues else old(readCount)) + 1
      ensures faces == old(faces) + [FaceAfter(sensor, tilt, readCount, numAvgValues)]
      ensures face == Stable(listFaceIdx)
      ensures FaceColour(face, Brightness) == Some(pixel)
    {
      face := SmoothedFaceIdx();
      if face == 0 {
        pixel := AdjColor(Off, Brightness);
      } else if face == 1 {
        pixel := AdjColor(Red, Brightness);
      } else if face == 2 {
        pixel := AdjColor(Yellow, Brightness);
      } else if face == 3 {
        pixel := AdjColor(Green, Brightness);
      } else if face == 4 {
        pixel := AdjColor(Cyan, Brightness);
      } else if face == 5 {
        pixel := AdjColor(Blue, Brightness);
      } else if face == 6 {
        pixel := AdjColor(Magenta, Brightness);
      }
    }
  }
}
