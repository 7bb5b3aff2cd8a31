/**
 * `requestTeoWithRegionFallback` (`lib/teoPagesRegionFallback.js`): the
 * Pages actions of the API are only served in some regions, so the call is
 * tried region by region. A region error moves on to the next candidate, any
 * other error is rethrown at once, and when every candidate has failed a
 * wrapped error names them all.
 */
module RegionFallback {
  import opened Wrappers
  import opened JsText
  import opened JsValue
  import opened Upstream

  /** The candidates used when neither environment variable names any region. */
  const DefaultRegions: seq<string> := ["ap-guangzhou", "ap-singapore"]

  /**
   * `PAGES_REGION_CANDIDATES`: `TEO_PAGES_REGION || TEO_PAGES_REGIONS || ""`,
   * split on commas, trimmed, empties dropped; the defaults when nothing is left.
   */
  function RegionCandidates(region: Option<string>, regions: Option<string>): (r: seq<string>)
    ensures |r| > 0
  {
    var named := SplitList(TextOr(OrText(region, regions), ""), ',');
    if |named| > 0 then named else DefaultRegions
  }

  /** A configured list of names is used as written. */
  lemma ConfiguredRegions(names: seq<string>, regions: Option<string>)
    requires |names| > 0
    requires forall i :: 0 <= i < |names| ==> IsListName(names[i], ',')
    ensures RegionCandidates(Some(Join(names, ',')), regions) == names
  {
    JoinedList(names);
    NamedCandidates(Join(names, ','), regions);
  }

  /** A non-empty `TEO_PAGES_REGION` is the list split, when that leaves any name. */
  lemma NamedCandidates(text: string, regions: Option<string>)
    requires text != []
    ensures |SplitList(text, ',')| > 0 ==> RegionCandidates(Some(text), regions) == SplitList(text, ',')
  {
    assert TextOr(OrText(Some(text), regions), "") == text;
  }

  /** A comma-joined list of names is a non-empty text that splits back into the names. */
  lemma JoinedList(names: seq<string>)
    requires |names| > 0
    requires forall i :: 0 <= i < |names| ==> IsListName(names[i], ',')
    ensures Join(names, ',') != [] && SplitList(Join(names, ','), ',') == names
  {
    JoinNonEmpty(names, ',');
    SplitListJoin(names, ',');
  }

  /** Joining names of which the first is not empty gives a text that is not empty. */
  lemma JoinNonEmpty(names: seq<string>, sep: char)
    requires |names| > 0 && names[0] != []
    ensures Join(names, sep) != []
  {
    if |names| > 1 {
      assert Join(names, sep)[0] == names[0][0];
    }
  }

  /** `TEO_PAGES_REGIONS` is read when `TEO_PAGES_REGION` is unset or empty. */
  lemma RegionsListUsed(region: Option<string>, names: seq<string>)
    requires region.None? || region == Some("")
    requires |names| > 0
    requires forall i :: 0 <= i < |names| ==> IsListName(names[i], ',')
    ensures RegionCandidates(region, Some(Join(names, ','))) == names
  {
    UnsetRegionDefers(region, Some(Join(names, ',')));
    ConfiguredRegions(names, None);
  }

  /** An unset or empty `TEO_PAGES_REGION` leaves the choice to `TEO_PAGES_REGIONS`. */
  lemma UnsetRegionDefers(region: Option<string>, regions: Option<string>)
    requires !TruthyText(region)
    ensures RegionCandidates(region, regions) == RegionCandidates(regions, None)
  {
    assert TextOr(OrText(region, regions), "") == TextOr(OrText(regions, None), "");
  }

  /** A `TEO_PAGES_REGION` that names no region gives the defaults, whatever `TEO_PAGES_REGIONS` says. */
  lemma BlankRegionDefaults(text: string, regions: Option<string>)
    requires text != []
    ensures |SplitList(text, ',')| == 0 ==> RegionCandidates(Some(text), regions) == DefaultRegions
  {
    assert TextOr(OrText(Some(text), regions), "") == text;
  }

  /** For instance `TEO_PAGES_REGION=" , "` hides `TEO_PAGES_REGIONS=eu-frankfurt`. */
  lemma CommasOnlyDefaults()
    ensures RegionCandidates(Some(" , "), Some("eu-frankfurt")) == DefaultRegions
  {
    assert " , " == " " + [','] + " ";
    SplitListAfter(" ", " ", ',');
    SplitListPiece(" ", ',');
    assert TrimStart(" ") == [];
    BlankRegionDefaults(" , ", Some("eu-frankfurt"));
  }

  /** With neither variable set the defaults are tried, Guangzhou first. */
  lemma UnsetRegions()
    ensures RegionCandidates(None, None) == DefaultRegions
  {
    assert TextOr(OrText(None, None), "") == [];
    assert SplitList([], ',') == [] by {
      SplitListEmpty(',');
    }
  }

  /** The `/X-TC-Region/i` test on the error message (ASCII lowering is exact for this pattern). */
  predicate NamesRegionHeader(message: string) {
    Contains(ToLower(message), "x-tc-region")
  }

  /**
   * `isUnsupportedRegionError`: the code `UnsupportedRegion`, or the code
   * `InvalidParameterValue` with a message that names the `X-TC-Region` header.
   */
  predicate IsUnsupportedRegionError(err: TeoError): (r: bool)
    ensures err.code == Some("UnsupportedRegion") ==> r
    ensures r ==> err.code == Some("UnsupportedRegion") || err.code == Some("InvalidParameterValue")
    ensures err.code == Some("InvalidParameterValue") && Contains(TextOr(err.message, ""), "X-TC-Region") ==> r
    ensures err.code == Some("InvalidParameterValue") ==> (r <==> NamesRegionHeader(TextOr(err.message, "")))
  {
    HeaderNamedInMessage(TextOr(err.message, ""));
    err.code == Some("UnsupportedRegion") ||
    (err.code == Some("InvalidParameterValue") && NamesRegionHeader(TextOr(err.message, "")))
  }

  /** A message that names the header as written is a region error, and so is any re-casing of it. */
  lemma HeaderNamedInMessage(message: string)
    ensures Contains(message, "X-TC-Region") ==> NamesRegionHeader(message)
    ensures NamesRegionHeader(message) <==> NamesRegionHeader(ToLower(message))
  {
    if Contains(message, "X-TC-Region") {
      ContainsLower(message, "X-TC-Region");
      assert ToLower("X-TC-Region") == "x-tc-region";
    }
    ToLowerIdempotent(message);
  }

  /** How the call ended: answered in a region, rethrown, or every candidate used up. */
  datatype Fallback = Answered(data: map<string, Json>, region: string) | Rethrown(err: TeoError) | Exhausted(err: TeoError)

  /** The outcome and the regions tried, in order. */
  datatype Attempts = Attempts(result: Fallback, attempted: seq<string>)

  /** `regionCandidates.join(",") || "(empty)"`. */
  function AttemptedText(candidates: seq<string>): string {
    if Join(candidates, ',') == [] then "(empty)" else Join(candidates, ',')
  }

  /**
   * `String(lastError?.message || lastError)`: the last message; `null` when
   * nothing was tried; an error without a message prints as `Error`.
   */
  function LastErrorText(last: Option<TeoError>): string {
    match last
    case None => "null"
    case Some(err) => if TruthyText(err.message) then err.message.value else "Error"
  }

  /** The wrapped error thrown once every candidate failed with a region error: the last error's code and request id. */
  function ExhaustedError(candidates: seq<string>, last: Option<TeoError>): (err: TeoError)
    ensures err.code == (if last.Some? then last.value.code else None)
    ensures err.requestId == (if last.Some? then last.value.requestId else None)
  {
    TeoError(
      if last.Some? then last.value.code else None,
      Some("Pages 接口在候选 region 均不可用（已尝试：" + AttemptedText(candidates) + "）。" +
           "可通过环境变量 TEO_PAGES_REGION（支持逗号分隔）或 TEO_PAGES_REGIONS 指定可用 region。" +
           "最后一次错误：" + LastErrorText(last)),
      if last.Some? then last.value.requestId else None)
  }

  /** Whether the call in `region` failed with a region error. */
  predicate RegionRefused(call: string -> Outcome, region: string) {
    call(region).Failed? && IsUnsupportedRegionError(call(region).err)
  }

  /** The loop from candidate `i` on, `last` being the error of candidate `i - 1`. */
  function TryFrom(candidates: seq<string>, call: string -> Outcome, i: nat, last: Option<TeoError>): (a: Attempts)
    requires i <= |candidates|
    ensures i <= |a.attempted| <= |candidates|
    ensures a.result.Exhausted? ==> a.attempted == candidates
    ensures !a.result.Exhausted? ==> i < |a.attempted| && a.attempted == candidates[..|a.attempted|]
    decreases |candidates| - i
  {
    if i == |candidates| then Attempts(Exhausted(ExhaustedError(candidates, last)), candidates)
    else
      match call(candidates[i])
      case Succeeded(data) => Attempts(Answered(data, candidates[i]), candidates[..i + 1])
      case Failed(err) =>
        if IsUnsupportedRegionError(err) then TryFrom(candidates, call, i + 1, Some(err))
        else Attempts(Rethrown(err), candidates[..i + 1])
  }

  /** What `requestTeoWithRegionFallback` does with the candidates, `call` giving the outcome in each region. */
  function TryRegions(candidates: seq<string>, call: string -> Outcome): (a: Attempts)
    ensures |a.attempted| <= |candidates| && a.attempted == candidates[..|a.attempted|]
    ensures forall j :: 0 <= j < |a.attempted| - 1 ==> RegionRefused(call, a.attempted[j])
    ensures a.result.Answered? ==>
      |a.attempted| > 0 && a.result.region == a.attempted[|a.attempted| - 1] &&
      call(a.result.region) == Succeeded(a.result.data)
    ensures a.result.Rethrown? ==>
      |a.attempted| > 0 && call(a.attempted[|a.attempted| - 1]) == Failed(a.result.err) &&
      !IsUnsupportedRegionError(a.result.err)
    ensures a.result.Exhausted? ==>
      a.attempted == candidates && (forall j :: 0 <= j < |candidates| ==> RegionRefused(call, candidates[j])) &&
      a.result.err == ExhaustedError(candidates, if |candidates| == 0 then None else Some(call(candidates[|candidates| - 1]).err))
  {
    TryFromPrefix(candidates, call, 0, None);
    TryFromRefused(candidates, call, 0, None);
    TryFromExhausted(candidates, call, 0, None);
    TryFrom(candidates, call, 0, None)
  }

  /** The loop from candidate `i` on tries a prefix of the candidates and stops at an answer or a non-region error. */
  lemma {:induction false} TryFromPrefix(candidates: seq<string>, call: string -> Outcome, i: nat, last: Option<TeoError>)
    requires i <= |candidates|
    ensures var a := TryFrom(candidates, call, i, last);
      i <= |a.attempted| <= |candidates| && a.attempted == candidates[..|a.attempted|] &&
      (a.result.Answered? ==>
        |a.attempted| > 0 && a.result.region == a.attempted[|a.attempted| - 1] &&
        call(a.result.region) == Succeeded(a.result.data)) &&
      (a.result.Rethrown? ==>
        |a.attempted| > 0 && call(a.attempted[|a.attempted| - 1]) == Failed(a.result.err) &&
        !IsUnsupportedRegionError(a.result.err))
    decreases |candidates| - i
  {
    if i < |candidates| {
      match call(candidates[i])
      case Succeeded(data) =>
        assert candidates[..i + 1][i] == candidates[i];
      case Failed(err) =>
        if IsUnsupportedRegionError(err) {
          TryFromPrefix(candidates, call, i + 1, Some(err));
        } else {
          assert candidates[..i + 1][i] == candidates[i];
        }
    } else {
      assert candidates[..|candidates|] == candidates;
    }
  }

  /** Every region the loop from `i` moves past was refused. */
  lemma {:induction false} TryFromRefused(candidates: seq<string>, call: string -> Outcome, i: nat, last: Option<TeoError>)
    requires i <= |candidates|
    requires forall j :: 0 <= j < i ==> RegionRefused(call, candidates[j])
    ensures var a := TryFrom(candidates, call, i, last);
      forall j :: 0 <= j < |a.attempted| - 1 ==> RegionRefused(call, a.attempted[j])
    decreases |candidates| - i
  {
    if i < |candidates| {
      match call(candidates[i])
      case Succeeded(data) =>
        assert forall j :: 0 <= j < i + 1 ==> candidates[..i + 1][j] == candidates[j];
      case Failed(err) =>
        if IsUnsupportedRegionError(err) {
          assert RegionRefused(call, candidates[i]);
          TryFromRefused(candidates, call, i + 1, Some(err));
          assert var b := TryFrom(candidates, call, i + 1, Some(err));
            forall j :: 0 <= j < |b.attempted| - 1 ==> RegionRefused(call, b.attempted[j]);
          assert TryFrom(candidates, call, i, last) == TryFrom(candidates, call, i + 1, Some(err));
        } else {
          assert forall j :: 0 <= j < i + 1 ==> candidates[..i + 1][j] == candidates[j];
        }
    }
  }

  /** The loop from `i` uses up the candidates only when all were refused, and then wraps the last error. */
  lemma {:induction false} TryFromExhausted(candidates: seq<string>, call: string -> Outcome, i: nat, last: Option<TeoError>)
    requires i <= |candidates|
    requires forall j :: 0 <= j < i ==> RegionRefused(call, candidates[j])
    requires i == 0 ==> last.None?
    requires i > 0 ==> RegionRefused(call, candidates[i - 1]) && last == Some(call(candidates[i - 1]).err)
    ensures var a := TryFrom(candidates, call, i, last);
      a.result.Exhausted? ==>
        a.attempted == candidates && (forall j :: 0 <= j < |candidates| ==> RegionRefused(call, candidates[j])) &&
        a.result.err == ExhaustedError(candidates, if |candidates| == 0 then None else Some(call(candidates[|candidates| - 1]).err))
    decreases |candidates| - i
  {
    if i < |candidates| {
      match call(candidates[i])
      case Succeeded(data) =>
      case Failed(err) =>
        if IsUnsupportedRegionError(err) {
          TryFromExhausted(candidates, call, i + 1, Some(err));
        }
    }
  }

  /**
   * An `InvalidParameterValue` error whose message does not name the region
   * header ends the loop at the first candidate: that error is rethrown.
   */
  lemma OtherParameterErrorRethrown(candidates: seq<string>, call: string -> Outcome)
    requires |candidates| > 0 && call(candidates[0]).Failed?
    requires call(candidates[0]).err.code == Some("InvalidParameterValue")
    requires !NamesRegionHeader(TextOr(call(candidates[0]).err.message, ""))
    ensures TryRegions(candidates, call) == Attempts(Rethrown(call(candidates[0]).err), [candidates[0]])
  {
    assert !IsUnsupportedRegionError(call(candidates[0]).err);
    assert candidates[..1] == [candidates[0]];
  }

  /** The retry loop itself, proved to do what `TryRegions` describes. */
  method RequestWithRegionFallback(candidates: seq<string>, call: string -> Outcome)
    returns (result: Fallback, attempted: seq<string>)
    ensures Attempts(result, attempted) == TryRegions(candidates, call)
  {
    var last: Option<TeoError> := None;
    var i := 0;
    while i < |candidates|
      invariant 0 <= i <= |candidates|
      invariant TryFrom(candidates, call, i, last) == TryFrom(candidates, call, 0, None)
    {
      var outcome := call(candidates[i]);
      match outcome
      case Succeeded(data) =>
        return Answered(data, candidates[i]), candidates[..i + 1];
      case Failed(err) =>
        last := Some(err);
        if !IsUnsupportedRegionError(err) {
          return Rethrown(err), candidates[..i + 1];
        }
      i := i + 1;
    }
    result := Exhausted(ExhaustedError(candidates, last));
    attempted := candidates;
  }
}
