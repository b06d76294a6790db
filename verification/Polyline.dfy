/**
 The polyline decoder of packages/config/src/routing.ts and the encoder of Google's
 Encoded Polyline Algorithm Format that it undoes.

 A string is a sequence of UTF-16 code units.  Coordinates are integers in units of
 1e-5 degree.  The decoder's `|`, `<<`, `>>` and `~` act on 32-bit integers: a 32-bit
 pattern is kept here as its unsigned value.
 */
module Polyline {
  import opened Common
  import opened Options

  type CodeUnit = n: nat | n < 0x1_0000

  datatype Waypoint = Waypoint(lat: int, lng: int)

  datatype Bounds = Bounds(southWest: Waypoint, northEast: Waypoint)

  datatype Decoded = Decoded(value: int, nextIndex: nat)

  const TWO32: nat := 0x1_0000_0000
  const LIMIT: int := 0x4000_0000

  // ---------- 32-bit operators ----------

  /** Bitwise or, bit by bit. */
  function BitOr(a: nat, b: nat): nat
    decreases a + b
  {
    if a == 0 then b
    else if b == 0 then a
    else 2 * BitOr(a / 2, b / 2) + (if a % 2 == 1 || b % 2 == 1 then 1 else 0)
  }

  /** `c << shift`: the shift count is taken modulo 32, the result modulo 2^32. */
  function ShiftLeft(c: nat, shift: nat): nat {
    (c * Pow2(shift % 32)) % TWO32
  }

  /** The signed reading of a 32-bit pattern. */
  function ToInt32(u: nat): int
    requires u < TWO32
  {
    if u < 0x8000_0000 then u else u - TWO32
  }

  /** `result & 1 ? ~(result >> 1) : result >> 1`, with the arithmetic shift. */
  function UnZigZag(u: nat): int
    requires u < TWO32
  {
    var half := ToInt32(u) / 2;
    if u % 2 == 1 then -half - 1 else half
  }

  lemma {:induction false} BitOrBound(a: nat, b: nat, k: nat)
    requires a < Pow2(k) && b < Pow2(k)
    ensures BitOr(a, b) < Pow2(k)
  {
    if k == 0 || a == 0 || b == 0 {
    } else {
      BitOrBound(a / 2, b / 2, k - 1);
    }
  }

  lemma {:induction false} Pow2Split(a: nat, b: nat)
    ensures Pow2(a + b) == Pow2(a) * Pow2(b)
  {
    if a == 0 {
    } else {
      Pow2Split(a - 1, b);
      assert a - 1 + b == a + b - 1;
      MulAssoc(2, Pow2(a - 1), Pow2(b));
    }
  }

  lemma MulAssoc(a: nat, b: nat, c: nat)
    ensures (a * b) * c == a * (b * c)
  {
  }

  /** Or-ing in a chunk that lies wholly above the bits collected so far is addition. */
  lemma {:induction false} BitOrDisjoint(low: nat, c: nat, k: nat)
    requires low < Pow2(k)
    ensures BitOr(low, c * Pow2(k)) == low + c * Pow2(k)
  {
    if k == 0 || low == 0 || c == 0 {
    } else {
      var p := Pow2(k - 1);
      assert Pow2(k) == 2 * p;
      TimesDouble(c, p);
      hide BitOr, Pow2;
      BitOrDisjoint(low / 2, c, k - 1);
      BitOrEven(low, c * p);
    }
  }

  lemma TimesDouble(c: nat, p: nat)
    ensures c * (2 * p) == 2 * (c * p)
  {
  }

  lemma {:induction false} BitOrEven(low: nat, m: nat)
    ensures BitOr(low, 2 * m) == 2 * BitOr(low / 2, m) + low % 2
  {
  }

  // ---------- the encoder of the format ----------

  function ZigZag(d: int): nat {
    if d < 0 then -2 * d - 1 else 2 * d
  }

  /** Five bits at a time, low bits first; every chunk but the last carries 0x20. */
  function Chunks(n: nat): seq<CodeUnit> {
    if n < 0x20 then [n + 63] else [0x20 + n % 0x20 + 63] + Chunks(n / 0x20)
  }

  function EncodeValue(d: int): seq<CodeUnit> {
    Chunks(ZigZag(d))
  }

  /** Each point is written as its difference from the previous one. */
  function EncodeFrom(previous: Waypoint, points: seq<Waypoint>): seq<CodeUnit>
    decreases |points|
  {
    if points == [] then []
    else EncodeValue(points[0].lat - previous.lat)
         + EncodeValue(points[0].lng - previous.lng)
         + EncodeFrom(points[0], points[1..])
  }

  const ORIGIN := Waypoint(0, 0)

  function Encode(points: seq<Waypoint>): seq<CodeUnit> {
    EncodeFrom(ORIGIN, points)
  }

  // ---------- the decoder as a specification ----------

  function DecodeValueFrom(encoded: seq<CodeUnit>, index: nat, result: nat, shift: nat): (r: Option<Decoded>)
    requires result < TWO32
    ensures r.Some? ==> index < r.value.nextIndex <= |encoded|
    ensures r.Some? ==> -LIMIT <= r.value.value < LIMIT
    decreases |encoded| - index
  {
    if index >= |encoded| then None
    else
      var chunk: int := encoded[index] as int - 63;
      var result' := MergeChunk(result, chunk % 0x20, shift);
      if chunk < 0x20 then Some(Decoded(UnZigZag(result'), index + 1))
      else DecodeValueFrom(encoded, index + 1, result', shift + 5)
  }

  /** `result |= (byte & 0x1f) << shift`. */
  function MergeChunk(result: nat, bits: nat, shift: nat): (r: nat)
    requires result < TWO32
    ensures r < TWO32
  {
    Pow2At32();
    BitOrBound(result, ShiftLeft(bits, shift), 32);
    BitOr(result, ShiftLeft(bits, shift))
  }

  function DecodePointsFrom(encoded: seq<CodeUnit>, index: nat, at: Waypoint): (r: Option<seq<Waypoint>>)
    decreases |encoded| - index
  {
    if index >= |encoded| then Some([])
    else
      match DecodeValueFrom(encoded, index, 0, 0)
      case None => None
      case Some(lat) =>
        match DecodeValueFrom(encoded, lat.nextIndex, 0, 0)
        case None => None
        case Some(lng) =>
          var point := Waypoint(at.lat + lat.value, at.lng + lng.value);
          match DecodePointsFrom(encoded, lng.nextIndex, point)
          case None => None
          case Some(rest) => Some([point] + rest)
  }

  /** `None` stands for a thrown RoutePlanningError. */
  function Decode(encoded: seq<CodeUnit>): Option<seq<Waypoint>> {
    match DecodePointsFrom(encoded, 0, ORIGIN)
    case Some(points) => if |points| < 2 then None else Some(points)
    case None => None
  }

  // ---------- the decoder as the loops of the source ----------

  method DecodePolylineValue(encoded: seq<CodeUnit>, startIndex: nat) returns (r: Option<Decoded>)
    ensures r == DecodeValueFrom(encoded, startIndex, 0, 0)
  {
    var result, shift, index := 0, 0, startIndex;
    while index < |encoded|
      invariant 0 <= result < TWO32
      invariant 0 <= startIndex <= index && 0 <= shift
      invariant DecodeValueFrom(encoded, startIndex, 0, 0) == DecodeValueFrom(encoded, index, result, shift)
    {
      var chunk: int := encoded[index] as int - 63;
      var merged := MergeChunk(result, chunk % 0x20, shift);
      index := index + 1;
      result := merged;
      shift := shift + 5;
      if chunk < 0x20 {
        return Some(Decoded(UnZigZag(result), index));
      }
    }
    return None;
  }

  ghost function Prepend(head: seq<Waypoint>, tail: Option<seq<Waypoint>>): Option<seq<Waypoint>> {
    match tail
    case None => None
    case Some(points) => Some(head + points)
  }

  lemma PrependNothing(points: Option<seq<Waypoint>>)
    ensures Prepend([], points) == points
  {
    if points.Some? {
      assert [] + points.value == points.value;
    }
  }

  lemma PrependTwice(head: seq<Waypoint>, point: Waypoint, tail: Option<seq<Waypoint>>)
    ensures Prepend(head, Prepend([point], tail)) == Prepend(head + [point], tail)
  {
    if tail.Some? {
      assert head + ([point] + tail.value) == head + [point] + tail.value;
    }
  }

  method DecodePolyline(encoded: seq<CodeUnit>) returns (r: Option<seq<Waypoint>>)
    ensures r == Decode(encoded)
  {
    hide DecodeValueFrom;
    var coordinates: seq<Waypoint> := [];
    var index, lat, lng := 0, 0, 0;
    ghost var all := DecodePointsFrom(encoded, 0, ORIGIN);
    PrependNothing(all);
    while index < |encoded|
      invariant 0 <= index
      invariant all == Prepend(coordinates, DecodePointsFrom(encoded, index, Waypoint(lat, lng)))
    {
      var latitudeDelta := DecodePolylineValue(encoded, index);
      if latitudeDelta.None? {
        return None;
      }
      var longitudeDelta := DecodePolylineValue(encoded, latitudeDelta.value.nextIndex);
      if longitudeDelta.None? {
        return None;
      }
      ghost var before := DecodePointsFrom(encoded, index, Waypoint(lat, lng));
      lat := lat + latitudeDelta.value.value;
      lng := lng + longitudeDelta.value.value;
      index := longitudeDelta.value.nextIndex;
      ghost var after := DecodePointsFrom(encoded, index, Waypoint(lat, lng));
      assert before == Prepend([Waypoint(lat, lng)], after);
      PrependTwice(coordinates, Waypoint(lat, lng), after);
      coordinates := coordinates + [Waypoint(lat, lng)];
    }
    assert coordinates + [] == coordinates;
    if |coordinates| < 2 {
      return None;
    }
    return Some(coordinates);
  }

  /** The smallest box around the points; the empty list gives the box at the origin. */
  ghost predicate IsBoundingBox(points: seq<Waypoint>, b: Bounds) {
    && (points == [] ==> b == Bounds(ORIGIN, ORIGIN))
    && (forall p | p in points ::
          && b.southWest.lat <= p.lat <= b.northEast.lat
          && b.southWest.lng <= p.lng <= b.northEast.lng)
    && (points != [] ==>
          && (exists p | p in points :: p.lat == b.southWest.lat)
          && (exists p | p in points :: p.lat == b.northEast.lat)
          && (exists p | p in points :: p.lng == b.southWest.lng)
          && (exists p | p in points :: p.lng == b.northEast.lng))
  }

  method ComputeBounds(coordinates: seq<Waypoint>) returns (b: Bounds)
    ensures IsBoundingBox(coordinates, b)
  {
    if coordinates == [] {
      return Bounds(ORIGIN, ORIGIN);
    }
    var minLat, maxLat := coordinates[0].lat, coordinates[0].lat;
    var minLng, maxLng := coordinates[0].lng, coordinates[0].lng;
    for i := 0 to |coordinates|
      invariant forall p | p in coordinates[..i] :: minLat <= p.lat <= maxLat && minLng <= p.lng <= maxLng
      invariant exists p | p in coordinates :: p.lat == minLat
      invariant exists p | p in coordinates :: p.lat == maxLat
      invariant exists p | p in coordinates :: p.lng == minLng
      invariant exists p | p in coordinates :: p.lng == maxLng
    {
      var c := coordinates[i];
      assert c in coordinates;
      minLat := if c.lat < minLat then c.lat else minLat;
      maxLat := if c.lat > maxLat then c.lat else maxLat;
      minLng := if c.lng < minLng then c.lng else minLng;
      maxLng := if c.lng > maxLng then c.lng else maxLng;
    }
    assert coordinates[..|coordinates|] == coordinates;
    return Bounds(Waypoint(minLat, minLng), Waypoint(maxLat, maxLng));
  }

  // ---------- decoding undoes encoding ----------

  lemma ProductFacts(n: nat, p: nat)
    requires p > 0 && n * p < 0x8000_0000
    ensures (n % 0x20) * p <= n * p
    ensures n >= 0x20 ==> 0x20 * p < 0x8000_0000
    ensures (n % 0x20) * p + (n / 0x20) * (0x20 * p) == n * p
    ensures (n / 0x20) * (0x20 * p) < 0x8000_0000
  {
    assert n == 0x20 * (n / 0x20) + n % 0x20;
    assert n * p == (n / 0x20) * (0x20 * p) + (n % 0x20) * p;
    if n >= 0x20 {
      assert n * p >= 0x20 * p;
    }
    assert (n % 0x20) * p >= 0;
    assert (n / 0x20) * (0x20 * p) >= 0;
  }

  lemma Pow2At5()
    ensures Pow2(5) == 0x20
  {
  }

  lemma Pow2At32()
    ensures Pow2(32) == TWO32
  {
    hide Pow2;
    Pow2At8();
    Pow2Split(8, 8);
    Pow2Split(16, 16);
  }

  lemma Pow2At8()
    ensures Pow2(8) == 0x100
  {
  }

  lemma Pow2At31()
    ensures Pow2(31) == 0x8000_0000
  {
    Pow2At32();
  }

  /** The string holds c from index i on. */
  ghost predicate Holds(s: seq<CodeUnit>, i: nat, c: seq<CodeUnit>) {
    i + |c| <= |s| && s[i..i + |c|] == c
  }

  lemma HoldsBoth(s: seq<CodeUnit>, i: nat, a: seq<CodeUnit>, b: seq<CodeUnit>)
    requires Holds(s, i, a + b)
    ensures Holds(s, i, a) && Holds(s, i + |a|, b)
  {
    var both := s[i..i + |a + b|];
    assert s[i..i + |a|] == both[..|a|] == a;
    assert s[i + |a|..i + |a| + |b|] == both[|a|..] == b;
  }

  lemma MergeAdds(result: nat, bits: nat, shift: nat)
    requires result < Pow2(shift) && bits < 0x20 && shift <= 30
    requires result + bits * Pow2(shift) < 0x8000_0000
    ensures result < TWO32
    ensures MergeChunk(result, bits, shift) == result + bits * Pow2(shift)
  {
    hide Pow2, BitOr;
    var p := Pow2(shift);
    assert bits * p >= 0;
    Small(bits * p);
    BitOrDisjoint(result, bits, shift);
  }

  lemma Small(u: nat)
    requires u < TWO32
    ensures u % TWO32 == u
  {
  }

  lemma NextPower(shift: nat, result: nat, bits: nat)
    requires result < Pow2(shift) && bits < 0x20
    ensures Pow2(shift + 5) == 0x20 * Pow2(shift)
    ensures result + bits * Pow2(shift) < Pow2(shift + 5)
  {
    hide Pow2;
    Pow2Split(shift, 5);
    Pow2At5();
    var p := Pow2(shift);
    assert bits * p <= 0x1f * p;
  }

  lemma FirstChunk(s: seq<CodeUnit>, i: nat, n: nat)
    requires Holds(s, i, Chunks(n))
    ensures i < |s| && s[i] as int - 63 == if n < 0x20 then n else 0x20 + n % 0x20
    ensures n < 0x20 ==> |Chunks(n)| == 1
    ensures n >= 0x20 ==> |Chunks(n)| == 1 + |Chunks(n / 0x20)| && Holds(s, i + 1, Chunks(n / 0x20))
  {
    assert s[i] == s[i..i + |Chunks(n)|][0] == Chunks(n)[0];
    if n >= 0x20 {
      HoldsBoth(s, i, [Chunks(n)[0]], Chunks(n / 0x20));
    }
  }

  function Scaled(n: nat, shift: nat): nat {
    n * Pow2(shift)
  }

  /** Merging one chunk takes its share of n off what is still to be read. */
  lemma ChunkStep(n: nat, result: nat, shift: nat) returns (next: nat)
    requires result < Pow2(shift) && Pow2(shift) < 0x8000_0000
    requires result + Scaled(n, shift) < 0x8000_0000
    ensures result < TWO32 && next == MergeChunk(result, n % 0x20, shift)
    ensures n < 0x20 ==> next == result + Scaled(n, shift)
    ensures n >= 0x20 ==> next < Pow2(shift + 5) < 0x8000_0000
    ensures n >= 0x20 ==> next + Scaled(n / 0x20, shift + 5) == result + Scaled(n, shift)
  {
    hide MergeChunk, Pow2;
    var p, bits := Pow2(shift), n % 0x20;
    Pow2At31();
    if shift > 30 { Pow2Mono(31, shift); }
    ProductFacts(n, p);
    MergeAdds(result, bits, shift);
    next := result + bits * p;
    NextPower(shift, result, bits);
  }

  /** Reading back the chunks of n on top of the bits already collected. */
  lemma {:induction false} ChunksDecode(s: seq<CodeUnit>, i: nat, n: nat, result: nat, shift: nat)
    requires Holds(s, i, Chunks(n))
    requires result < Pow2(shift) && Pow2(shift) < 0x8000_0000
    requires result + Scaled(n, shift) < 0x8000_0000
    ensures result < TWO32
    ensures DecodeValueFrom(s, i, result, shift)
         == Some(Decoded(UnZigZag(result + Scaled(n, shift)), i + |Chunks(n)|))
    decreases n
  {
    hide MergeChunk, UnZigZag, Pow2, Chunks, Holds, Scaled;
    var next := ChunkStep(n, result, shift);
    FirstChunk(s, i, n);
    if n >= 0x20 {
      ChunksDecode(s, i + 1, n / 0x20, next, shift + 5);
    }
  }

  lemma UnZigZagZigZag(d: int)
    requires -LIMIT <= d < LIMIT
    ensures ZigZag(d) < 0x8000_0000 && UnZigZag(ZigZag(d)) == d
  {
  }

  /** One value survives the trip exactly when its zig-zag form fits 31 bits. */
  lemma ValueRoundTrip(s: seq<CodeUnit>, i: nat, d: int)
    requires Holds(s, i, EncodeValue(d))
    ensures DecodeValueFrom(s, i, 0, 0) == Some(Decoded(d, i + |EncodeValue(d)|))
            <==> -LIMIT <= d < LIMIT
  {
    if -LIMIT <= d < LIMIT {
      UnZigZagZigZag(d);
      ChunksDecode(s, i, ZigZag(d), 0, 0);
    }
  }

  /** Every step from one point to the next, starting at the origin, is below 2^30 units. */
  ghost predicate StepsFit(previous: Waypoint, points: seq<Waypoint>)
    decreases |points|
  {
    points != [] ==>
      && -LIMIT <= points[0].lat - previous.lat < LIMIT
      && -LIMIT <= points[0].lng - previous.lng < LIMIT
      && StepsFit(points[0], points[1..])
  }

  lemma {:induction false} PointsRoundTrip(s: seq<CodeUnit>, i: nat, previous: Waypoint, points: seq<Waypoint>)
    requires StepsFit(previous, points)
    requires i <= |s| && s[i..] == EncodeFrom(previous, points)
    ensures DecodePointsFrom(s, i, previous) == Some(points)
    decreases |points|
  {
    hide DecodeValueFrom, EncodeValue, Encode;
    if points == [] {
    } else {
      var dLat, dLng := points[0].lat - previous.lat, points[0].lng - previous.lng;
      var lat, lng := EncodeValue(dLat), EncodeValue(dLng);
      var rest := EncodeFrom(points[0], points[1..]);
      assert Holds(s, i, (lat + lng) + rest);
      HoldsBoth(s, i, lat + lng, rest);
      HoldsBoth(s, i, lat, lng);
      ValueRoundTrip(s, i, dLat);
      ValueRoundTrip(s, i + |lat|, dLng);
      var j := i + |lat| + |lng|;
      assert s[j..] == rest;
      PointsRoundTrip(s, j, points[0], points[1..]);
      assert points == [points[0]] + points[1..];
    }
  }

  ghost predicate OnEarth(p: Waypoint) {
    -90_00000 <= p.lat <= 90_00000 && -180_00000 <= p.lng <= 180_00000
  }

  lemma {:induction false} OnEarthStepsFit(previous: Waypoint, points: seq<Waypoint>)
    requires OnEarth(previous) && forall p | p in points :: OnEarth(p)
    ensures StepsFit(previous, points)
    decreases |points|
  {
    if points == [] {
    } else {
      assert points[0] in points;
      OnEarthStepsFit(points[0], points[1..]);
    }
  }

  /** Decoding the standard encoding of any two or more points on the globe returns them. */
  lemma RoundTrip(points: seq<Waypoint>)
    requires |points| >= 2 && forall p | p in points :: OnEarth(p)
    ensures Decode(Encode(points)) == Some(points)
  {
    OnEarthStepsFit(ORIGIN, points);
    PointsRoundTrip(Encode(points), 0, ORIGIN, points);
  }

  // ---------- encoding undoes decoding, on canonical strings ----------

  /**
   One value with no superfluous chunk: continuation bytes, then a final byte that is not a bare
   zero.  A seventh byte has room for one bit only.
   */
  ghost predicate CanonicalGroup(g: seq<CodeUnit>) {
    && 1 <= |g| <= 7
    && (|g| == 7 ==> g[6] == 64)
    && (forall i | 0 <= i < |g| - 1 :: 95 <= g[i] <= 126)
    && 63 <= g[|g| - 1] <= 94
    && (|g| > 1 ==> g[|g| - 1] != 63)
  }

  ghost function GroupValue(g: seq<CodeUnit>): nat
    requires CanonicalGroup(g)
    decreases |g|
  {
    if |g| == 1 then g[0] - 63 else g[0] - 95 + 0x20 * GroupValue(g[1..])
  }

  lemma {:induction false} GroupIsChunks(g: seq<CodeUnit>)
    requires CanonicalGroup(g)
    ensures Chunks(GroupValue(g)) == g
    ensures |g| > 1 ==> GroupValue(g) > 0
    ensures g[|g| - 1] != 63 ==> GroupValue(g) > 0
    decreases |g|
  {
    if |g| == 1 {
    } else {
      var tail := g[1..];
      GroupTail(g);
      GroupIsChunks(tail);
      var n := GroupValue(g);
      assert n % 0x20 == g[0] - 95 && n / 0x20 == GroupValue(tail);
      assert n >= 0x20;
      assert g == [g[0]] + tail;
    }
  }

  lemma GroupTail(g: seq<CodeUnit>)
    requires CanonicalGroup(g) && |g| > 1
    ensures CanonicalGroup(g[1..]) && g[1..][|g| - 2] == g[|g| - 1]
  {
    forall i | 0 <= i < |g| - 2 ensures 95 <= g[1..][i] <= 126 {
      assert g[1..][i] == g[i + 1];
    }
  }

  lemma {:induction false} GroupBound(g: seq<CodeUnit>)
    requires CanonicalGroup(g)
    ensures GroupValue(g) < (g[|g| - 1] - 62) * Pow2(5 * (|g| - 1))
    decreases |g|
  {
    hide Pow2;
    Pow2At5();
    if |g| > 1 {
      GroupTail(g);
      GroupBound(g[1..]);
      Pow2Split(5, 5 * (|g| - 2));
      var c, p := g[|g| - 1] - 62, Pow2(5 * (|g| - 2));
      TimesOneMoreChunk(GroupValue(g[1..]), c, p);
    } else {
      PowerOfNothing();
    }
  }

  lemma TimesMono(a: int, b: int, n: nat)
    requires a <= b
    ensures a * n <= b * n
  {
  }

  /** A rest below c * p leaves the whole below c * 0x20 * p, whatever chunk precedes it. */
  lemma TimesOneMoreChunk(rest: nat, c: int, p: nat)
    requires rest < c * p
    ensures 0x20 * rest + 0x1f < c * (0x20 * p)
  {
    assert c * (0x20 * p) == 0x20 * (c * p);
  }

  lemma PowerOfNothing()
    ensures Pow2(0) == 1
  {
  }

  ghost function Flatten(groups: seq<seq<CodeUnit>>): seq<CodeUnit> {
    if groups == [] then [] else groups[0] + Flatten(groups[1..])
  }

  /** The points that a list of canonical groups, taken two by two, stands for. */
  ghost function PointsOf(at: Waypoint, groups: seq<seq<CodeUnit>>): seq<Waypoint>
    requires |groups| % 2 == 0 && forall g | g in groups :: CanonicalGroup(g)
    decreases |groups|
  {
    if groups == [] then []
    else
      var point := Waypoint(at.lat + Delta(groups[0]), at.lng + Delta(groups[1]));
      [point] + PointsOf(point, groups[2..])
  }

  ghost function Delta(g: seq<CodeUnit>): (d: int)
    requires CanonicalGroup(g)
    ensures EncodeValue(d) == g
    ensures -LIMIT <= d < LIMIT
  {
    GroupIsChunks(g);
    GroupValueBound(g);
    var n := GroupValue(g);
    assert ZigZag(if n % 2 == 1 then -(n / 2) - 1 else n / 2) == n;
    if n % 2 == 1 then -(n / 2) - 1 else n / 2
  }

  lemma GroupValueBound(g: seq<CodeUnit>)
    requires CanonicalGroup(g)
    ensures GroupValue(g) < 0x8000_0000
  {
    hide Pow2;
    GroupBound(g);
    var c, p := g[|g| - 1] - 62, Pow2(5 * (|g| - 1));
    Pow2At31();
    Pow2Split(1, 30);
    Pow2Split(5, 25);
    Pow2At5();
    Twice();
    if |g| == 7 {
      assert c * p == 2 * Pow2(30);
    } else {
      Pow2Mono(5 * (|g| - 1), 25);
      TimesMono(c, 0x20, p);
      TimesMono(p, Pow2(25), 0x20);
    }
  }

  lemma {:induction false} GroupsAreEncodings(at: Waypoint, groups: seq<seq<CodeUnit>>)
    requires |groups| % 2 == 0 && forall g | g in groups :: CanonicalGroup(g)
    ensures Flatten(groups) == EncodeFrom(at, PointsOf(at, groups))
    ensures StepsFit(at, PointsOf(at, groups))
    ensures |PointsOf(at, groups)| == |groups| / 2
    decreases |groups|
  {
    hide EncodeValue, Delta, CanonicalGroup;
    if groups == [] {
    } else {
      var rest := groups[2..];
      var point := Waypoint(at.lat + Delta(groups[0]), at.lng + Delta(groups[1]));
      GroupsAreEncodings(point, rest);
      var points := PointsOf(at, groups);
      assert points[0] == point && points[1..] == PointsOf(point, rest);
      assert groups[1..][0] == groups[1] && groups[1..][1..] == rest;
      FlattenTwo(groups);
    }
  }

  lemma FlattenTwo(groups: seq<seq<CodeUnit>>)
    requires |groups| >= 2
    ensures Flatten(groups) == groups[0] + groups[1] + Flatten(groups[2..])
  {
    assert groups[1..][0] == groups[1] && groups[1..][1..] == groups[2..];
    assert groups[0] + (groups[1] + Flatten(groups[2..])) == groups[0] + groups[1] + Flatten(groups[2..]);
  }

  /** Canonical groups, an even number of them, one behind the other. */
  ghost predicate Canonical(encoded: seq<CodeUnit>) {
    exists groups :: IsSplit(groups, encoded)
  }

  ghost predicate IsSplit(groups: seq<seq<CodeUnit>>, encoded: seq<CodeUnit>) {
    |groups| % 2 == 0 && (forall g | g in groups :: CanonicalGroup(g)) && Flatten(groups) == encoded
  }

  /** A canonical string decodes, unless it holds fewer than two points. */
  lemma CanonicalDecodes(groups: seq<seq<CodeUnit>>)
    requires IsSplit(groups, Flatten(groups))
    ensures DecodePointsFrom(Flatten(groups), 0, ORIGIN) == Some(PointsOf(ORIGIN, groups))
    ensures Encode(PointsOf(ORIGIN, groups)) == Flatten(groups)
    ensures Decode(Flatten(groups)).Some? <==> |groups| >= 4
  {
    GroupsAreEncodings(ORIGIN, groups);
    PointsRoundTrip(Flatten(groups), 0, ORIGIN, PointsOf(ORIGIN, groups));
  }

  /** The groups of a canonical value: at most k + 1, and the last of so many is a single bit. */
  lemma {:induction false} ChunksShape(n: nat, k: nat)
    requires k <= 6 && n < 2 * Pow2(5 * k)
    ensures var g := Chunks(n);
      && |g| <= k + 1
      && (|g| == k + 1 && n > 0 ==> g[|g| - 1] == 64)
      && (forall i | 0 <= i < |g| - 1 :: 95 <= g[i] <= 126)
      && 63 <= g[|g| - 1] <= 94 && (n > 0 ==> g[|g| - 1] != 63)
    decreases k
  {
    hide Pow2;
    if k == 0 {
      PowerOfNothing();
    } else if n >= 0x20 {
      Pow2Split(5, 5 * (k - 1));
      Pow2At5();
      ChunksShape(n / 0x20, k - 1);
      var g, tail := Chunks(n), Chunks(n / 0x20);
      assert g == [0x20 + n % 0x20 + 63] + tail;
      assert forall i | 1 <= i < |g| :: g[i] == tail[i - 1];
    }
  }

  lemma ValueIsCanonical(d: int)
    requires -LIMIT <= d < LIMIT
    ensures CanonicalGroup(EncodeValue(d))
  {
    hide Pow2, Chunks;
    Pow2Split(1, 30);
    Pow2At31();
    Twice();
    ChunksShape(ZigZag(d), 6);
    SmallChunks(ZigZag(d));
  }

  lemma Twice()
    ensures Pow2(1) == 2
  {
  }

  lemma SmallChunks(n: nat)
    ensures |Chunks(n)| >= 1 && (|Chunks(n)| > 1 ==> n > 0)
  {
  }

  /** What the decoder returns steps from point to point by values it can read. */
  lemma {:induction false} DecodedStepsFit(encoded: seq<CodeUnit>, index: nat, at: Waypoint)
    requires DecodePointsFrom(encoded, index, at).Some?
    ensures StepsFit(at, DecodePointsFrom(encoded, index, at).value)
    decreases |encoded| - index
  {
    hide DecodeValueFrom;
    if index < |encoded| {
      var lat := DecodeValueFrom(encoded, index, 0, 0).value;
      var lng := DecodeValueFrom(encoded, lat.nextIndex, 0, 0).value;
      DecodedStepsFit(encoded, lng.nextIndex, Waypoint(at.lat + lat.value, at.lng + lng.value));
    }
  }

  lemma {:induction false} EncodingSplits(previous: Waypoint, points: seq<Waypoint>) returns (groups: seq<seq<CodeUnit>>)
    requires StepsFit(previous, points)
    ensures IsSplit(groups, EncodeFrom(previous, points))
    decreases |points|
  {
    hide EncodeValue, CanonicalGroup;
    if points == [] {
      groups := [];
    } else {
      var dLat, dLng := points[0].lat - previous.lat, points[0].lng - previous.lng;
      ValueIsCanonical(dLat);
      ValueIsCanonical(dLng);
      var rest := EncodingSplits(points[0], points[1..]);
      groups := [EncodeValue(dLat), EncodeValue(dLng)] + rest;
      FlattenTwo(groups);
      assert groups[2..] == rest;
    }
  }

  /** A string that decodes re-encodes to itself exactly when it is canonical. */
  lemma ReencodesIff(encoded: seq<CodeUnit>)
    requires Decode(encoded).Some?
    ensures Encode(Decode(encoded).value) == encoded <==> Canonical(encoded)
  {
    hide StepsFit, EncodeFrom, DecodePointsFrom, PointsOf, Flatten, CanonicalGroup;
    DecodedStepsFit(encoded, 0, ORIGIN);
    if Encode(Decode(encoded).value) == encoded {
      var groups := EncodingSplits(ORIGIN, Decode(encoded).value);
      assert IsSplit(groups, encoded);
    }
    if Canonical(encoded) {
      var groups :| IsSplit(groups, encoded);
      CanonicalDecodes(groups);
    }
  }

  /** Two values, one behind the other, lead from one point to the next. */
  ghost predicate Leads(encoded: seq<CodeUnit>, start: nat, middle: nat, end: nat, before: Waypoint, point: Waypoint) {
    var lat, lng := DecodeValueFrom(encoded, start, 0, 0), DecodeValueFrom(encoded, middle, 0, 0);
    && lat.Some? && lat.value.nextIndex == middle && lng.Some? && lng.value.nextIndex == end
    && start < middle < end <= |encoded|
    && point.lat == before.lat + lat.value.value && point.lng == before.lng + lng.value.value
  }

  /** Two values lead from each point of the path to the next, and the last one ends the string. */
  ghost predicate Path(encoded: seq<CodeUnit>, cuts: seq<nat>, path: seq<Waypoint>) {
    && path != [] && |cuts| == 2 * |path| - 1 && cuts[|cuts| - 1] == |encoded|
    && forall k | 0 <= k < |path| - 1 ::
         Leads(encoded, cuts[2 * k], cuts[2 * k + 1], cuts[2 * k + 2], path[k], path[k + 1])
  }

  lemma OneStepMore(encoded: seq<CodeUnit>, start: nat, middle: nat, at: Waypoint, cuts: seq<nat>, path: seq<Waypoint>)
    requires Path(encoded, cuts, path) && Leads(encoded, start, middle, cuts[0], at, path[0])
    ensures Path(encoded, [start, middle] + cuts, [at] + path)
  {
    hide Leads;
    var cuts', path' := [start, middle] + cuts, [at] + path;
    forall k | 0 <= k < |path'| - 1
      ensures Leads(encoded, cuts'[2 * k], cuts'[2 * k + 1], cuts'[2 * k + 2], path'[k], path'[k + 1])
    {
      if k > 0 {
        var j := k - 1;
        assert Leads(encoded, cuts[2 * j], cuts[2 * j + 1], cuts[2 * j + 2], path[j], path[j + 1]);
      }
    }
  }

  lemma {:induction false} PointsLead(encoded: seq<CodeUnit>, index: nat, at: Waypoint) returns (cuts: seq<nat>)
    requires index <= |encoded| && DecodePointsFrom(encoded, index, at).Some?
    ensures Path(encoded, cuts, [at] + DecodePointsFrom(encoded, index, at).value) && cuts[0] == index
    decreases |encoded| - index
  {
    hide Path, DecodeValueFrom;
    if index == |encoded| {
      cuts := [index];
      PathEnds(encoded, at);
    } else {
      var lat := DecodeValueFrom(encoded, index, 0, 0).value;
      var lng := DecodeValueFrom(encoded, lat.nextIndex, 0, 0).value;
      var point := Waypoint(at.lat + lat.value, at.lng + lng.value);
      var rest := PointsLead(encoded, lng.nextIndex, point);
      var path := [point] + DecodePointsFrom(encoded, lng.nextIndex, point).value;
      OneStepMore(encoded, index, lat.nextIndex, at, rest, path);
      cuts := [index, lat.nextIndex] + rest;
      assert DecodePointsFrom(encoded, index, at).value == path;
    }
  }

  lemma PathEnds(encoded: seq<CodeUnit>, at: Waypoint)
    ensures Path(encoded, [|encoded|], [at] + [])
  {
  }

  /**
   On any string, decoding that does not throw has consumed all of it, two advancing values a point, and each point is
   the one before, or the origin, plus its two values.
   */
  lemma DecodeConsumesAll(encoded: seq<CodeUnit>) returns (cuts: seq<nat>, path: seq<Waypoint>)
    requires Decode(encoded).Some?
    ensures path == [Waypoint(0, 0)] + Decode(encoded).value && |path| > 2
    ensures |cuts| == 2 * |path| - 1 && cuts[0] == 0 && cuts[|cuts| - 1] == |encoded|
    ensures forall k | 0 <= k < |path| - 1 ::
              Leads(encoded, cuts[2 * k], cuts[2 * k + 1], cuts[2 * k + 2], path[k], path[k + 1])
  {
    hide Leads;
    path := [Waypoint(0, 0)] + Decode(encoded).value;
    cuts := PointsLead(encoded, 0, ORIGIN);
  }

  // ---------- what any group stands for, bit by bit ----------

  predicate Bit(n: nat, j: nat)
    decreases j
  {
    if j == 0 then n % 2 == 1 else Bit(n / 2, j - 1)
  }

  lemma {:induction false} BitOfZero(j: nat)
    ensures !Bit(0, j)
  {
    if j > 0 {
      BitOfZero(j - 1);
    }
  }

  lemma {:induction false} BitOfOr(a: nat, b: nat, j: nat)
    ensures Bit(BitOr(a, b), j) <==> Bit(a, j) || Bit(b, j)
    decreases j
  {
    BitOfZero(j);
    if a != 0 && b != 0 && j > 0 {
      BitOfOr(a / 2, b / 2, j - 1);
    }
  }

  lemma {:induction false} BitOfProduct(c: nat, k: nat, j: nat)
    ensures Bit(c * Pow2(k), j) <==> k <= j && Bit(c, j - k)
    decreases k
  {
    if k > 0 {
      TimesDouble(c, Pow2(k - 1));
      if j > 0 {
        BitOfProduct(c, k - 1, j - 1);
      }
    }
  }

  lemma {:induction false} BitOfRemainder(n: nat, k: nat, j: nat)
    ensures Bit(n % Pow2(k), j) <==> j < k && Bit(n, j)
    decreases k
  {
    if k == 0 {
      BitOfZero(j);
    } else {
      HalfOfRemainder(n, Pow2(k - 1));
      if j > 0 {
        BitOfRemainder(n / 2, k - 1, j - 1);
      }
    }
  }

  lemma HalfOfRemainder(n: nat, p: nat)
    requires p > 0
    ensures (n % (2 * p)) / 2 == (n / 2) % p && (n % (2 * p)) % 2 == n % 2
  {
    var q, r := Divided(n, 2 * p);
    MulAssoc(2, p, q);
    Halves(n, p * q, r, p);
    RemainderIs(p, q, r / 2, n / 2);
  }

  lemma Divided(n: nat, m: nat) returns (q: nat, r: nat)
    requires m > 0
    ensures n == m * q + r && r < m && r == n % m
  {
    q, r := n / m, n % m;
  }

  lemma Halves(n: nat, x: nat, r: nat, p: nat)
    requires n == 2 * x + r && r < 2 * p
    ensures n / 2 == x + r / 2 && n % 2 == r % 2 && r / 2 < p
  {
  }

  lemma RemainderIs(p: nat, q: nat, t: nat, n: nat)
    requires t < p && n == p * q + t
    ensures n % p == t
  {
    var d, r := n / p, n % p;
    if d < q {
      TimesMono(d + 1, q, p);
      assert false;
    } else if q < d {
      TimesMono(q + 1, d, p);
      assert false;
    }
  }

  /** What a byte puts at place j, shifted left by this much. */
  predicate ByteBit(code: CodeUnit, shift: nat, j: nat) {
    shift <= j < 32 && Bit((code as int - 63) % 32, j - shift)
  }

  ghost predicate SomeByteBit(encoded: seq<CodeUnit>, start: nat, end: nat, j: nat)
    requires start <= end <= |encoded|
  {
    exists i | start <= i < end :: ByteBit(encoded[i], 5 * (i - start) % 32, j)
  }

  lemma MergedBit(result: nat, code: CodeUnit, shift: nat, j: nat)
    requires result < TWO32
    ensures Bit(MergeChunk(result, (code as int - 63) % 0x20, shift), j) <==> Bit(result, j) || ByteBit(code, shift % 32, j)
  {
    var bits: nat := (code as int - 63) % 0x20;
    Pow2At32();
    BitOfOr(result, ShiftLeft(bits, shift), j);
    BitOfRemainder(bits * Pow2(shift % 32), 32, j);
    BitOfProduct(bits, shift % 32, j);
  }

  lemma {:induction false} CollectsBits(encoded: seq<CodeUnit>, start: nat, index: nat, result: nat) returns (u: nat)
    requires start <= index <= |encoded| && result < TWO32
    requires DecodeValueFrom(encoded, index, result, 5 * (index - start)).Some?
    requires forall j: nat :: Bit(result, j) <==> SomeByteBit(encoded, start, index, j)
    ensures var r := DecodeValueFrom(encoded, index, result, 5 * (index - start)).value;
      && u < TWO32 && r.value == UnZigZag(u)
      && (forall j: nat :: Bit(u, j) <==> SomeByteBit(encoded, start, r.nextIndex, j))
      && encoded[r.nextIndex - 1] as int - 63 < 0x20
      && forall i | index <= i < r.nextIndex - 1 :: encoded[i] as int - 63 >= 0x20
    decreases |encoded| - index
  {
    hide UnZigZag, Bit, ByteBit, MergeChunk;
    var shift := 5 * (index - start);
    var chunk: int := encoded[index] as int - 63;
    var result' := MergeChunk(result, chunk % 0x20, shift);
    forall j: nat ensures Bit(result', j) <==> SomeByteBit(encoded, start, index + 1, j) {
      MergedBit(result, encoded[index], shift, j);
      OneMoreByte(encoded, start, index, j);
    }
    if chunk < 0x20 {
      u := result';
    } else {
      u := CollectsBits(encoded, start, index + 1, result');
    }
  }

  lemma OneMoreByte(encoded: seq<CodeUnit>, start: nat, index: nat, j: nat)
    requires start <= index < |encoded|
    ensures SomeByteBit(encoded, start, index + 1, j)
       <==> SomeByteBit(encoded, start, index, j) || ByteBit(encoded[index], 5 * (index - start) % 32, j)
  {
    hide ByteBit;
  }

  /**
   What any group stands for, canonical or not: it ends with its first byte that carries no 0x20; each byte puts its
   five bits at five times its place, counted modulo 32, and what falls above 32 bits is lost; and the signed pattern
   collected so is the value doubled, or the complement of that if it is odd.
   */
  lemma ValueBits(encoded: seq<CodeUnit>, start: nat) returns (u: nat)
    requires start < |encoded| && DecodeValueFrom(encoded, start, 0, 0).Some?
    ensures var r := DecodeValueFrom(encoded, start, 0, 0).value;
      && encoded[r.nextIndex - 1] as int - 63 < 0x20
      && (forall i | start <= i < r.nextIndex - 1 :: encoded[i] as int - 63 >= 0x20)
      && (forall j: nat :: Bit(u, j) <==>
            exists i | start <= i < r.nextIndex :: ByteBit(encoded[i], 5 * (i - start) % 32, j))
      && 0 <= u < 0x1_0000_0000
      && var signed := if u < 0x8000_0000 then u else u - 0x1_0000_0000;
         if u % 2 == 0 then 2 * r.value == signed else -2 * r.value - 1 == signed
  {
    hide Bit, ByteBit, DecodeValueFrom, UnZigZag;
    forall j: nat ensures !Bit(0, j) {
      BitOfZero(j);
    }
    u := CollectsBits(encoded, start, start, 0);
    UnZigZagIs(u);
  }

  lemma UnZigZagIs(u: nat)
    requires u < TWO32
    ensures var signed := if u < 0x8000_0000 then u else u - 0x1_0000_0000;
      if u % 2 == 0 then 2 * UnZigZag(u) == signed else -2 * UnZigZag(u) - 1 == signed
  {
  }
}
