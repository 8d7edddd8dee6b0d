/**
 * The pure helpers of the dashboard script (server/public/main.js): which
 * charger id the controls hold, the charger selector's options, the phase
 * count used for the power estimate, and the message the `api` helper
 * throws for a failed request.
 */
module DashboardUi {
  import opened JsValues
  import opened Upstream
  import opened History
  import Handlers

  /** The characters `String.prototype.trim` removes: white space and line terminators. */
  const SpaceChars: set<char> := {
    '\t', '\n', '\U{000B}', '\U{000C}', '\r', ' ', '\U{00A0}', '\U{1680}',
    '\U{2000}', '\U{2001}', '\U{2002}', '\U{2003}', '\U{2004}', '\U{2005}', '\U{2006}',
    '\U{2007}', '\U{2008}', '\U{2009}', '\U{200A}',
    '\U{2028}', '\U{2029}', '\U{202F}', '\U{205F}', '\U{3000}', '\U{FEFF}'
  }

  predicate JsSpace(c: char) {
    c in SpaceChars
  }

  /** How many white-space characters `s` starts with. */
  function LeadingSpace(s: string): (n: nat)
    ensures n <= |s|
  {
    if s == [] || !JsSpace(s[0]) then 0 else 1 + LeadingSpace(s[1..])
  }

  /** How many white-space characters `s` ends with. */
  function TrailingSpace(s: string): (n: nat)
    ensures n <= |s|
  {
    if s == [] || !JsSpace(s[|s| - 1]) then 0 else 1 + TrailingSpace(s[..|s| - 1])
  }

  /** The leading run is all white space and is followed by a character that is not. */
  lemma {:induction false} LeadingSpaceExact(s: string)
    ensures forall k | 0 <= k < LeadingSpace(s) :: JsSpace(s[k])
    ensures LeadingSpace(s) < |s| ==> !JsSpace(s[LeadingSpace(s)])
    decreases |s|
  {
    if s != [] && JsSpace(s[0]) {
      var tail := s[1..];
      LeadingSpaceExact(tail);
      forall k | 1 <= k < LeadingSpace(s) ensures JsSpace(s[k]) {
        assert s[k] == tail[k - 1];
      }
      if LeadingSpace(s) < |s| {
        assert s[LeadingSpace(s)] == tail[LeadingSpace(tail)];
      }
    }
  }

  /** The trailing run is all white space and is preceded by a character that is not. */
  lemma {:induction false} TrailingSpaceExact(s: string)
    ensures forall k | |s| - TrailingSpace(s) <= k < |s| :: JsSpace(s[k])
    ensures TrailingSpace(s) < |s| ==> !JsSpace(s[|s| - TrailingSpace(s) - 1])
    decreases |s|
  {
    if s != [] && JsSpace(s[|s| - 1]) {
      var init := s[..|s| - 1];
      TrailingSpaceExact(init);
      forall k | |s| - TrailingSpace(s) <= k < |s| - 1 ensures JsSpace(s[k]) {
        assert s[k] == init[k];
      }
      if TrailingSpace(s) < |s| {
        assert s[|s| - TrailingSpace(s) - 1] == init[|init| - TrailingSpace(init) - 1];
      }
    }
  }

  /** `s` with its leading white space removed. */
  function TrimStart(s: string): string {
    s[LeadingSpace(s)..]
  }

  /** `s` with its trailing white space removed. */
  function TrimEnd(s: string): string {
    s[..|s| - TrailingSpace(s)]
  }

  /** `s.trim()` */
  function Trim(s: string): (r: string)
    ensures |r| <= |s|
  {
    TrimEnd(TrimStart(s))
  }

  /** Trimming keeps a contiguous middle part of the text, starting after the leading white space. */
  lemma TrimIsSlice(s: string)
    ensures var i := LeadingSpace(s);
      i + |Trim(s)| <= |s| && Trim(s) == s[i..i + |Trim(s)|]
  {
    var i := LeadingSpace(s);
    var t := TrimStart(s);
    var m := |t| - TrailingSpace(t);
    assert Trim(s) == t[..m];
    SliceOfSuffix(s, i, m);
  }

  /** A prefix of a suffix of `s` is a slice of `s`. */
  lemma SliceOfSuffix(s: string, i: nat, m: nat)
    requires i + m <= |s|
    ensures s[i..][..m] == s[i..i + m]
  {
  }

  /** Everything trimming cuts, from either end, is white space. */
  lemma TrimCutsOnlySpace(s: string)
    ensures var i := LeadingSpace(s);
      && (forall k | 0 <= k < i :: JsSpace(s[k]))
      && (forall k | i + |Trim(s)| <= k < |s| :: JsSpace(s[k]))
  {
    var i := LeadingSpace(s);
    var t := TrimStart(s);
    LeadingSpaceExact(s);
    TrailingSpaceExact(t);
    forall k | i + |Trim(s)| <= k < |s|
      ensures JsSpace(s[k])
    {
      assert s[k] == t[k - i];
    }
  }

  /** A trimmed text neither starts nor ends with white space. */
  lemma TrimmedEnds(s: string)
    ensures Trim(s) != [] ==> !JsSpace(Trim(s)[0]) && !JsSpace(Trim(s)[|Trim(s)| - 1])
  {
    var i := LeadingSpace(s);
    var t := TrimStart(s);
    var r := Trim(s);
    LeadingSpaceExact(s);
    TrailingSpaceExact(t);
    if r != [] {
      assert r[0] == t[0] == s[i];
      assert r[|r| - 1] == t[|t| - TrailingSpace(t) - 1];
    }
  }

  /** Trimming twice is trimming once. */
  lemma TrimIdempotent(s: string)
    ensures Trim(Trim(s)) == Trim(s)
  {
    var r := Trim(s);
    TrimmedEnds(s);
    assert LeadingSpace(r) == 0;
    assert TrimStart(r) == r;
    assert TrailingSpace(r) == 0;
    assert TrimEnd(r) == r;
  }

  /**
   * `getChargerId()`: the trimmed selection, else the trimmed typed id,
   * else ''. An absent control reads as ''.
   */
  function GetChargerId(selected: Option<string>, typed: Option<string>): (id: string)
    ensures selected.Some? && Trim(selected.value) != "" ==> id == Trim(selected.value)
    ensures (selected.None? || Trim(selected.value) == "") && typed.Some? ==> id == Trim(typed.value)
    ensures id == "" <==> (selected.None? || Trim(selected.value) == "") && (typed.None? || Trim(typed.value) == "")
  {
    var fromSelect := if selected.Some? then Trim(selected.value) else "";
    var fromInput := if typed.Some? then Trim(typed.value) else "";
    if fromSelect != "" then fromSelect else fromInput
  }

  /** The id the controls yield never starts or ends with white space. */
  lemma ChargerIdIsTrimmed(selected: Option<string>, typed: Option<string>)
    ensures var id := GetChargerId(selected, typed);
      id != "" ==> !JsSpace(id[0]) && !JsSpace(id[|id| - 1])
  {
    if selected.Some? {
      TrimmedEnds(selected.value);
    }
    if typed.Some? {
      TrimmedEnds(typed.value);
    }
  }

  /** An `<option>` of the charger selector: the placeholder, or the option built from one charger. */
  datatype SelectOption =
    | Placeholder
    | ChargerOption(charger: Js)

  /** The `value` attribute of an option: '' for the placeholder, so selecting it falls back to the typed id. */
  function OptionValueOf(o: SelectOption): (v: Js)
    ensures o.Placeholder? ==> v == Str("")
    ensures o.ChargerOption? ==> v == OptionValue(o.charger)
    ensures Truthy(v) || v == Str("")
  {
    if o.Placeholder? then Str("") else OptionValue(o.charger)
  }

  /** The text of an option: the charger's `name (value)`, showing the option's own value. */
  function Label(o: SelectOption): (t: Text)
    ensures o.Placeholder? ==> t == [Lit("Select your charger…")]
    ensures o.ChargerOption? ==>
      t == DisplayText(OptionName(o.charger)) + [Lit(" (")] + DisplayText(OptionValueOf(o)) + [Lit(")")]
  {
    if o.Placeholder? then [Lit("Select your charger…")]
    else DisplayText(OptionName(o.charger)) + [Lit(" (")] + DisplayText(OptionValue(o.charger)) + [Lit(")")]
  }

  const IdFields: seq<string> := ["id", "chargerId", "serial"]

  /** Reference precedence: the first field of `fields` whose value is truthy, else `fallback`. */
  function FirstTruthy(c: Js, fields: seq<string>, fallback: Js): Js {
    if fields == [] then fallback
    else if Truthy(Get(c, fields[0])) then Get(c, fields[0])
    else FirstTruthy(c, fields[1..], fallback)
  }

  /** `c.id || c.chargerId || c.serial || ''` */
  function OptionValue(c: Js): (v: Js)
    ensures v == Get(c, "id") || v == Get(c, "chargerId") || v == Get(c, "serial") || v == Str("")
    ensures Truthy(v) || v == Str("")
  {
    Or(Or(Or(Get(c, "id"), Get(c, "chargerId")), Get(c, "serial")), Str(""))
  }

  /** `c.name || (c.site && c.site.name) || 'Unnamed'` */
  function OptionName(c: Js): (name: Js)
    ensures Truthy(name)
  {
    Or(Or(Get(c, "name"), And(Get(c, "site"), Get(Get(c, "site"), "name"))), Str("Unnamed"))
  }

  /** The label is the charger's own name, else its site's name, else 'Unnamed'. */
  lemma OptionNamePrecedence(c: Js)
    ensures Truthy(Get(c, "name")) ==> OptionName(c) == Get(c, "name")
    ensures !Truthy(Get(c, "name")) && Truthy(Get(c, "site")) && Truthy(Get(Get(c, "site"), "name")) ==>
      OptionName(c) == Get(Get(c, "site"), "name")
    ensures !Truthy(Get(c, "name")) && !(Truthy(Get(c, "site")) && Truthy(Get(Get(c, "site"), "name"))) ==>
      OptionName(c) == Str("Unnamed")
  {
  }

  /** The id fallback is the first truthy one of the three fields, else ''. */
  lemma OptionValuePrecedence(c: Js)
    ensures OptionValue(c) == FirstTruthy(c, IdFields, Str(""))
  {
    var f1 := ["chargerId", "serial"];
    var f2 := ["serial"];
    assert IdFields[0] == "id" && IdFields[1..] == f1;
    assert f1[0] == "chargerId" && f1[1..] == f2;
    assert f2[0] == "serial" && f2[1..] == [];
    assert FirstTruthy(c, f2, Str("")) == Or(Get(c, "serial"), Str(""));
    assert FirstTruthy(c, f1, Str("")) == Or(Get(c, "chargerId"), FirstTruthy(c, f2, Str("")));
    assert FirstTruthy(c, IdFields, Str("")) == Or(Get(c, "id"), FirstTruthy(c, f1, Str("")));
  }

  /**
   * The fallbacks test truthiness, not presence: an empty id or name is
   * skipped, where the server's `??` would have kept it.
   */
  lemma EmptyFieldsFallThrough(id: string, name: string, site: string)
    requires id != "" && site != ""
    ensures var c := Obj(map["id" := Str(""), "chargerId" := Str(id), "name" := Str(""), "site" := Obj(map["name" := Str(site)])]);
      OptionValue(c) == Str(id) && OptionName(c) == Str(site)
      && Coalesce(Get(c, "id"), Get(c, "chargerId")) == Str("")
  {
    var c := Obj(map["id" := Str(""), "chargerId" := Str(id), "name" := Str(""), "site" := Obj(map["name" := Str(site)])]);
    assert Get(c, "id") == Str("") && Get(c, "chargerId") == Str(id);
    assert Get(c, "name") == Str("") && Get(c, "site") == Obj(map["name" := Str(site)]);
  }

  /** The options `forEach` appends before it reaches a null or undefined charger, where `c.id` throws. */
  function Listed(cs: seq<Js>): (os: seq<SelectOption>)
    ensures |os| <= |cs|
  {
    if cs == [] || Nullish(cs[0]) then [] else [ChargerOption(cs[0])] + Listed(cs[1..])
  }

  /** Every charger is listed, in order, exactly when none of them is null or undefined. */
  lemma {:induction false} ListedInOrder(cs: seq<Js>)
    ensures forall i | 0 <= i < |Listed(cs)| :: !Nullish(cs[i]) && Listed(cs)[i] == ChargerOption(cs[i])
    ensures |Listed(cs)| == |cs| <==> Readable(cs)
  {
    if cs != [] && !Nullish(cs[0]) {
      ListedInOrder(cs[1..]);
      assert Readable(cs) <==> Readable(cs[1..]) by {
        if Readable(cs[1..]) {
          forall i | 0 <= i < |cs| ensures !Nullish(cs[i]) {
            if i > 0 { assert cs[i] == cs[1..][i - 1]; }
          }
        }
      }
    } else if cs != [] {
      assert !Readable(cs);
    }
  }

  lemma ListedCons(x: Js, rest: seq<Js>)
    requires !Nullish(x)
    ensures Listed([x] + rest) == [ChargerOption(x)] + Listed(rest)
  {
    assert ([x] + rest)[1..] == rest;
  }

  lemma ReadableTail(a: seq<Js>)
    requires a != [] && Readable(a)
    ensures Readable(a[1..])
  {
    forall i | 0 <= i < |a[1..]| ensures !Nullish(a[1..][i]) {
      assert a[1..][i] == a[i + 1];
    }
  }

  /** A readable prefix contributes all its options, followed by those of the rest. */
  lemma {:induction false} ListedSplit(a: seq<Js>, b: seq<Js>)
    requires Readable(a)
    ensures Listed(a + b) == Listed(a) + Listed(b)
    decreases |a|
  {
    if a == [] {
      assert a + b == b;
    } else {
      var x, rest := a[0], a[1..];
      assert !Nullish(x);
      assert a + b == [x] + (rest + b) && a == [x] + rest;
      ListedCons(x, rest + b);
      ListedCons(x, rest);
      ReadableTail(a);
      ListedSplit(rest, b);
    }
  }

  /** Listing stops at the first null or undefined charger. */
  lemma ListedStops(cs: seq<Js>, i: nat)
    requires i < |cs| && Readable(cs[..i]) && Nullish(cs[i])
    ensures Listed(cs) == Listed(cs[..i])
  {
    ListedSplit(cs[..i], cs[i..]);
    assert cs[..i] + cs[i..] == cs;
  }

  /** A readable charger after a readable prefix adds its own option. */
  lemma ListedGrows(cs: seq<Js>, i: nat)
    requires i < |cs| && Readable(cs[..i]) && !Nullish(cs[i])
    ensures Readable(cs[..i + 1])
    ensures Listed(cs[..i + 1]) == Listed(cs[..i]) + [ChargerOption(cs[i])]
  {
    ListedSplit(cs[..i], [cs[i]]);
    assert cs[..i] + [cs[i]] == cs[..i + 1];
  }

  /**
   * The charger list loaded into the selector: it is emptied, the
   * placeholder goes first, then one option per charger. A body that is not
   * an array makes `forEach` throw before any option is added.
   */
  method LoadChargers(chargers: Js) returns (options: seq<SelectOption>)
    ensures options == [Placeholder] + (if chargers.Arr? then Listed(chargers.elems) else [])
  {
    options := [Placeholder];
    if !chargers.Arr? {
      return;
    }
    var cs := chargers.elems;
    for i := 0 to |cs|
      invariant Readable(cs[..i])
      invariant options == [Placeholder] + Listed(cs[..i])
    {
      if Nullish(cs[i]) {
        ListedStops(cs, i);
        return;
      }
      ListedGrows(cs, i);
      options := options + [ChargerOption(cs[i])];
    }
    assert cs[..|cs|] == cs;
  }

  /** `(P2 != null && P3 != null) ? 3 : 1`: three phases exactly when both circuit currents are reported. */
  function Phases(data: Js): (n: int)
    ensures n == 1 || n == 3
    ensures n == 3 <==> !Nullish(Get(data, "dynamicCircuitCurrentP2")) && !Nullish(Get(data, "dynamicCircuitCurrentP3"))
  {
    if !Nullish(Get(data, "dynamicCircuitCurrentP2")) && !Nullish(Get(data, "dynamicCircuitCurrentP3")) then 3 else 1
  }

  /**
   * The message `api` throws for a response that is not ok: `body.error`
   * when truthy, else the JSON text of the body; 'Request failed' when the
   * body does not parse (`None`) or reading `.error` throws (a `null` body).
   */
  function ApiErrorMessage(body: Option<Js>): (msg: Text)
    ensures body.None? || body == Some(Null) ==> msg == [Lit("Request failed")]
    ensures body.Some? && Truthy(Get(body.value, "error")) ==> msg == DisplayText(Get(body.value, "error"))
    ensures body.Some? && body.value != Null && !Truthy(Get(body.value, "error")) ==> msg == [Json(body.value)]
  {
    match body
    case None => [Lit("Request failed")]
    case Some(d) =>
      if d.Null? then [Lit("Request failed")]
      else
        var e := Get(d, "error");
        if Truthy(e) then DisplayText(e) else [Json(d)]
  }

  /**
   * The server's fixed error messages reach the user unchanged: for every
   * failure mapped to a fixed-message status or to a 5xx, the server's
   * reply carries that one message, and the dashboard shows the `{ error }`
   * JSON of that reply exactly as the server's mapper chose it.
   */
  lemma FixedMessagesReachTheUser(e: Failure)
    requires MapError(e).status in FixedMessages || MapError(e).status >= 500
    ensures var reply := Handlers.MappedReply(e);
      && reply.body.Error? && |reply.body.error| == 1 && reply.body.error[0].Lit?
      && reply.body.error[0].s == (if reply.status in FixedMessages then FixedMessages[reply.status] else Unavailable)
      && ApiErrorMessage(Some(Obj(map["error" := Str(reply.body.error[0].s)]))) == reply.body.error
  {
    var reply := Handlers.MappedReply(e);
    var msg := if reply.status in FixedMessages then FixedMessages[reply.status] else Unavailable;
    assert reply.body.error == [Lit(msg)];
    assert msg != "";
    assert Get(Obj(map["error" := Str(msg)]), "error") == Str(msg);
  }
}
