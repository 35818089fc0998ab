/**
 * `QueryVector`: the flat buffer of query features the motion-matching search
 * compares against. Vectors are written into and read out of it component by
 * component at a caller-chosen offset.
 *
 * The buffer's element type comes from a header that is not part of this model;
 * it is written here as `real`. Indexing past the end is undefined in the code,
 * so the offsets are required to be in range.
 */
module QueryVector {
  import opened AzMath

  /** The buffer with `v` written at `offset` and `offset + 1`. */
  function WithVector2(s: seq<real>, v: Vector2, offset: nat): (r: seq<real>)
    requires offset + 2 <= |s|
    ensures |r| == |s|
  {
    s[offset := v.x][offset + 1 := v.y]
  }

  /** The buffer with `v` written at `offset`, `offset + 1` and `offset + 2`. */
  function WithVector3(s: seq<real>, v: Vector3, offset: nat): (r: seq<real>)
    requires offset + 3 <= |s|
    ensures |r| == |s|
  {
    s[offset := v.x][offset + 1 := v.y][offset + 2 := v.z]
  }

  /** The two components starting at `offset`. */
  function Vector2At(s: seq<real>, offset: nat): Vector2
    requires offset + 2 <= |s|
  {
    Vector2(s[offset], s[offset + 1])
  }

  /** The three components starting at `offset`. */
  function Vector3At(s: seq<real>, offset: nat): Vector3
    requires offset + 3 <= |s|
  {
    Vector3(s[offset], s[offset + 1], s[offset + 2])
  }

  class QueryVector {
    var data: array<real>

    constructor (size: nat)
      ensures data.Length == size && fresh(data)
    {
      data := new real[size](_ => 0.0);
    }

    /** `SetVector2`. */
    method SetVector2(value: Vector2, offset: nat)
      requires offset + 2 <= data.Length
      modifies data
      ensures data[..] == WithVector2(old(data[..]), value, offset)
    {
      data[offset + 0] := value.x;
      data[offset + 1] := value.y;
    }

    /** `SetVector3`. */
    method SetVector3(value: Vector3, offset: nat)
      requires offset + 3 <= data.Length
      modifies data
      ensures data[..] == WithVector3(old(data[..]), value, offset)
    {
      data[offset + 0] := value.x;
      data[offset + 1] := value.y;
      data[offset + 2] := value.z;
    }

    /** `GetVector2`: reads two components and changes nothing. */
    method GetVector2(offset: nat) returns (v: Vector2)
      requires offset + 2 <= data.Length
      ensures v == Vector2At(data[..], offset)
    {
      v := Vector2(data[offset + 0], data[offset + 1]);
    }

    /** `GetVector3`: reads three components and changes nothing. */
    method GetVector3(offset: nat) returns (v: Vector3)
      requires offset + 3 <= data.Length
      ensures v == Vector3At(data[..], offset)
    {
      v := Vector3(data[offset + 0], data[offset + 1], data[offset + 2]);
    }
  }

  // ---------------------------------------------------------------------------
  // Properties
  // ---------------------------------------------------------------------------

  /** Reading a Vector2 back where it was written gives the written vector. */
  lemma Vector2RoundTrip(s: seq<real>, v: Vector2, offset: nat)
    requires offset + 2 <= |s|
    ensures Vector2At(WithVector2(s, v, offset), offset) == v
  {
  }

  /** Reading a Vector3 back where it was written gives the written vector. */
  lemma Vector3RoundTrip(s: seq<real>, v: Vector3, offset: nat)
    requires offset + 3 <= |s|
    ensures Vector3At(WithVector3(s, v, offset), offset) == v
  {
  }

  /** `SetVector2` writes exactly indices `offset` and `offset + 1`. */
  lemma Vector2WritesExactly(s: seq<real>, v: Vector2, offset: nat)
    requires offset + 2 <= |s|
    ensures forall i :: 0 <= i < |s| && i != offset && i != offset + 1 ==> WithVector2(s, v, offset)[i] == s[i]
    ensures WithVector2(s, v, offset)[offset] == v.x && WithVector2(s, v, offset)[offset + 1] == v.y
  {
  }

  /** `SetVector3` writes exactly indices `offset` to `offset + 2`. */
  lemma Vector3WritesExactly(s: seq<real>, v: Vector3, offset: nat)
    requires offset + 3 <= |s|
    ensures forall i :: 0 <= i < |s| && !(offset <= i < offset + 3) ==> WithVector3(s, v, offset)[i] == s[i]
    ensures WithVector3(s, v, offset)[offset] == v.x
    ensures WithVector3(s, v, offset)[offset + 1] == v.y
    ensures WithVector3(s, v, offset)[offset + 2] == v.z
  {
  }

  /** Writing a vector where one already is changes nothing. */
  lemma Vector3WriteBack(s: seq<real>, offset: nat)
    requires offset + 3 <= |s|
    ensures WithVector3(s, Vector3At(s, offset), offset) == s
  {
  }

  /** Writes to disjoint ranges leave each other's components readable. */
  lemma DisjointWritesCommute(s: seq<real>, a: Vector3, p: nat, b: Vector2, q: nat)
    requires p + 3 <= |s| && q + 2 <= |s|
    requires p + 3 <= q || q + 2 <= p
    ensures Vector3At(WithVector2(WithVector3(s, a, p), b, q), p) == a
    ensures Vector2At(WithVector2(WithVector3(s, a, p), b, q), q) == b
  {
  }
}
