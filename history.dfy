/**
 * Session-history aggregation shared by `/api/sessions-24h`,
 * `/api/sessions-range` and the history part of `/api/stream`: count the
 * upstream session records and sum their energy, reading each record's
 * energy from the first present of four candidate fields.
 */
module History {
  import opened JsValues
  import opened Upstream

  /** The candidate energy fields, in order of precedence. */
  const EnergyFields: seq<string> := ["kwh", "energy", "totalEnergy", "total_kwh"]

  /** Reference precedence: the value of the first field of `fields` that is neither null nor undefined, else 0. */
  function FirstPresent(s: Js, fields: seq<string>): Js {
    if fields == [] then Num(0.0)
    else if !Nullish(Get(s, fields[0])) then Get(s, fields[0])
    else FirstPresent(s, fields[1..])
  }

  /** `s.kwh ?? s.energy ?? s.totalEnergy ?? s.total_kwh ?? 0` */
  function EnergyField(s: Js): (v: Js)
    ensures !Nullish(v)
  {
    Coalesce(Coalesce(Coalesce(Coalesce(Get(s, "kwh"), Get(s, "energy")), Get(s, "totalEnergy")), Get(s, "total_kwh")), Num(0.0))
  }

  /** The chain of `??` in the source selects exactly the reference precedence over `EnergyFields`. */
  lemma EnergyFieldPrecedence(s: Js)
    ensures EnergyField(s) == FirstPresent(s, EnergyFields)
  {
    var f1 := ["energy", "totalEnergy", "total_kwh"];
    var f2 := ["totalEnergy", "total_kwh"];
    var f3 := ["total_kwh"];
    assert EnergyFields[0] == "kwh" && EnergyFields[1..] == f1;
    assert f1[0] == "energy" && f1[1..] == f2;
    assert f2[0] == "totalEnergy" && f2[1..] == f3;
    assert f3[0] == "total_kwh" && f3[1..] == [];
    assert FirstPresent(s, f3) == Coalesce(Get(s, "total_kwh"), Num(0.0));
    assert FirstPresent(s, f2) == Coalesce(Get(s, "totalEnergy"), FirstPresent(s, f3));
    assert FirstPresent(s, f1) == Coalesce(Get(s, "energy"), FirstPresent(s, f2));
    assert FirstPresent(s, EnergyFields) == Coalesce(Get(s, "kwh"), FirstPresent(s, f1));
  }

  /** What one record adds to the total: the selected field when it is a number, else nothing. */
  function Energy(s: Js): real {
    var v := EnergyField(s);
    if v.Num? then v.n else 0.0
  }

  /** Every record can be read: `s.kwh` on null or undefined would throw a TypeError. */
  predicate Readable(sessions: seq<Js>) {
    forall i | 0 <= i < |sessions| :: !Nullish(sessions[i])
  }

  /** The plain sum of the records' energy, accumulated from the first record to the last. */
  function TotalKwh(sessions: seq<Js>): (total: real)
    ensures sessions == [] ==> total == 0.0
    ensures |sessions| == 1 ==> total == Energy(sessions[0])
  {
    if sessions == [] then 0.0 else TotalKwh(sessions[..|sessions| - 1]) + Energy(sessions[|sessions| - 1])
  }

  /** The `for (const s of sessions)` loop: the total, or none when reading a record throws. */
  method Aggregate(sessions: seq<Js>) returns (total: Option<real>)
    ensures total.Some? <==> Readable(sessions)
    ensures total.Some? ==> total.value == TotalKwh(sessions)
  {
    var totalKwh := 0.0;
    for i := 0 to |sessions|
      invariant Readable(sessions[..i])
      invariant totalKwh == TotalKwh(sessions[..i])
    {
      var s := sessions[i];
      if Nullish(s) {
        return None;
      }
      var kwh := Coalesce(Coalesce(Coalesce(Coalesce(Get(s, "kwh"), Get(s, "energy")), Get(s, "totalEnergy")), Get(s, "total_kwh")), Num(0.0));
      if kwh.Num? {
        totalKwh := totalKwh + kwh.n;
      }
      assert sessions[..i + 1][..i] == sessions[..i];
    }
    assert sessions[..|sessions|] == sessions;
    return Some(totalKwh);
  }

  /** The response object `{from, to, sessionsCount, totalKwh, sessions}`. */
  function SummaryJson(from: string, to: string, sessions: seq<Js>, totalKwh: real): (r: Js)
    ensures Get(r, "sessionsCount") == Num(|sessions| as real)
    ensures Get(r, "totalKwh") == Num(totalKwh)
    ensures Get(r, "sessions") == Arr(sessions)
    ensures Get(r, "from") == Str(from) && Get(r, "to") == Str(to)
    ensures Truthy(r)
  {
    Obj(map["from" := Str(from), "to" := Str(to), "sessionsCount" := Num(|sessions| as real),
            "totalKwh" := Num(totalKwh), "sessions" := Arr(sessions)])
  }

  /**
   * The upstream session-list call as the handlers wrap it: a body that is
   * not an array reads as `[]`, and so does a 404.
   */
  function SessionList(o: Outcome): (r: Outcome)
    ensures r.Ok? ==> r.data.Arr?
    ensures o.Ok? && o.data.Arr? ==> r == o
    ensures o.Ok? && !o.data.Arr? ==> r == Ok(Arr([]))
    ensures o.Fail? && HasStatus(o.err, 404) ==> r == Ok(Arr([]))
    ensures o.Fail? && !HasStatus(o.err, 404) ==> r == o
  {
    match o
    case Ok(data) => if data.Arr? then o else Ok(Arr([]))
    case Fail(e) => if HasStatus(e, 404) then Ok(Arr([])) else o
  }

  /** The wrapping keeps a 401 a 401, so the refresh-and-retry policy is unchanged by it. */
  lemma SessionListKeepsUnauthorized(o: Outcome)
    ensures Unauthorized(SessionList(o)) <==> Unauthorized(o)
  {
  }

  lemma {:induction false} TotalKwhAppend(a: seq<Js>, b: seq<Js>)
    ensures TotalKwh(a + b) == TotalKwh(a) + TotalKwh(b)
    decreases |b|
  {
    if b == [] {
      assert a + b == a;
    } else {
      var b' := b[..|b| - 1];
      assert (a + b)[..|a + b| - 1] == a + b';
      assert (a + b)[|a + b| - 1] == b[|b| - 1];
      TotalKwhAppend(a, b');
    }
  }

  /** Removing one record subtracts exactly that record's energy. */
  lemma TotalKwhRemove(s: seq<Js>, i: nat)
    requires i < |s|
    ensures TotalKwh(s) == Energy(s[i]) + TotalKwh(s[..i] + s[i + 1..])
  {
    TotalKwhSplit(s, i);
    TotalKwhSplit(s[i..], 1);
    assert s[i..][..1] == [s[i]] && s[i..][1..] == s[i + 1..];
    TotalKwhAppend(s[..i], s[i + 1..]);
  }

  /** The total of a list is the total of any prefix plus the total of the rest. */
  lemma TotalKwhSplit(s: seq<Js>, i: nat)
    requires i <= |s|
    ensures TotalKwh(s) == TotalKwh(s[..i]) + TotalKwh(s[i..])
  {
    assert s[..i] + s[i..] == s;
    TotalKwhAppend(s[..i], s[i..]);
  }

  /** Records of non-negative energy never total a negative amount. */
  lemma {:induction false} TotalKwhNonNegative(sessions: seq<Js>)
    requires forall i | 0 <= i < |sessions| :: Energy(sessions[i]) >= 0.0
    ensures TotalKwh(sessions) >= 0.0
    decreases |sessions|
  {
    if sessions != [] {
      var init := sessions[..|sessions| - 1];
      assert forall i | 0 <= i < |init| :: init[i] == sessions[i];
      TotalKwhNonNegative(init);
    }
  }

  lemma MultisetRemove(b: seq<Js>, j: nat)
    requires j < |b|
    ensures multiset(b[..j] + b[j + 1..]) == multiset(b) - multiset{b[j]}
  {
    assert b == b[..j] + [b[j]] + b[j + 1..];
  }

  /** The total does not depend on the order of the records. */
  lemma {:induction false} TotalKwhPermutation(a: seq<Js>, b: seq<Js>)
    requires multiset(a) == multiset(b)
    ensures TotalKwh(a) == TotalKwh(b)
    decreases |a|
  {
    if a == [] {
      assert |b| == |multiset(b)| == 0;
    } else {
      var x := a[|a| - 1];
      var a' := a[..|a| - 1];
      assert a == a' + [x];
      assert multiset(a') == multiset(a) - multiset{x};
      assert x in multiset(b);
      var j :| 0 <= j < |b| && b[j] == x;
      MultisetRemove(b, j);
      TotalKwhPermutation(a', b[..j] + b[j + 1..]);
      TotalKwhRemove(b, j);
    }
  }

  /** The aggregate never reads fields past the first present one: a present non-number contributes 0. */
  lemma PresentNonNumberDoesNotFallThrough(s: Js)
    requires !Nullish(Get(s, "kwh")) && !Get(s, "kwh").Num?
    ensures Energy(s) == 0.0
  {
  }

  /** Absent earlier fields fall through to the next candidate. */
  lemma AbsentFieldsFallThrough(s: Js, e: real)
    requires Nullish(Get(s, "kwh")) && Nullish(Get(s, "energy")) && Get(s, "totalEnergy") == Num(e)
    ensures Energy(s) == e
  {
  }

  /** Three records of 1.1, 2.2 and 3.3 kWh total 6.6 kWh. */
  lemma SampleTotal()
    ensures TotalKwh([Obj(map["kwh" := Num(1.1)]), Obj(map["kwh" := Num(2.2)]), Obj(map["kwh" := Num(3.3)])]) == 6.6
  {
    var r1, r2, r3 := Obj(map["kwh" := Num(1.1)]), Obj(map["kwh" := Num(2.2)]), Obj(map["kwh" := Num(3.3)]);
    assert Energy(r1) == 1.1 && Energy(r2) == 2.2 && Energy(r3) == 3.3;
    assert [r1, r2, r3][..2] == [r1, r2];
    assert [r1, r2][..1] == [r1];
    assert [r1][..0] == [];
    assert TotalKwh([r1]) == 1.1;
    assert TotalKwh([r1, r2]) == 1.1 + 2.2;
  }
}
