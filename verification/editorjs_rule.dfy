/**
 * The Laravel validation rule for EditorJS documents: a ladder of checks on
 * the submitted value (a string, valid JSON, with a `blocks` array, accepted
 * by the EditorJS library), and a translation of the library's error text
 * into a message that names the offending block.
 *
 * `json_decode` and the EditorJS library are not modelled: each is a
 * function-valued parameter, `decode` and `library`, applied to the raw text.
 * Laravel's `$fail` closure is the class `FailCallback`, which records the
 * messages it is given.
 */
module EditorJsRule {
  import opened Wrappers
  import opened Decimal
  import opened Pattern

  // Messages of the first three checks (the `:attribute` placeholder is left to the framework).
  const NotAStringMessage := "The :attribute must be a string."
  const InvalidJsonMessage := "The :attribute must be a valid JSON string."
  const NoBlocksMessage := "The :attribute must contain a blocks array."

  // The three shapes of library error text that are recognised, as `/prefix(.+)suffix/`.
  const UnknownToolPrefix := "Tool `"
  const UnknownToolSuffix := "` not found"
  const MissingParamPrefix := "Not found required param `"
  const ExtraParamPrefix := "Found extra param `"
  const ParamSuffix := "`"

  // Leads of the messages built from them.
  const MissingParamLead := "Missing required parameter"
  const ExtraParamLead := "Unexpected parameter"

  /** A decoded JSON value: the payload of a block's `data`. */
  datatype Json =
    | Null
    | Bool(b: bool)
    | Number(n: int)
    | Text(s: string)
    | List(items: seq<Json>)
    | Object(fields: map<string, Json>)

  /** One entry of the decoded `blocks` array; `type` and `data` may each be unset. */
  datatype Block = Block(blockType: Option<string>, data: Option<map<string, Json>>)

  /** The value under validation: a string or anything else. */
  datatype Value = NotString | Str(text: string)

  /** What `json_decode` makes of the text: an error, or a document whose `blocks` is an array or not. */
  datatype Decoded = Malformed | Document(blocks: Option<seq<Block>>)

  /** What the EditorJS library does with the text: accept it or throw an `EditorJSException`. */
  datatype Outcome = Accepted | Rejected(message: string)

  /** Where a parameter was found: the block's index and its type (`'unknown'` when unset). */
  datatype Location = Location(blockIndex: nat, blockType: string)

  /** The recognised kinds of library error, with the name each one captures. */
  datatype Failure =
    | UnknownTool(name: string)
    | MissingParam(name: string)
    | ExtraParam(name: string)
    | Unrecognised(message: string)

  /** The block's `type` is set and is exactly `t`. */
  predicate HasType(b: Block, t: string)
  {
    b.blockType == Some(t)
  }

  /** The block's `data` is set and has the key `p`. */
  predicate HasParam(b: Block, p: string)
  {
    b.data.Some? && p in b.data.value
  }

  /** `i` is the first block whose type is `t`. */
  predicate IsFirstOfType(blocks: seq<Block>, t: string, i: int)
  {
    0 <= i < |blocks| && HasType(blocks[i], t) && forall j :: 0 <= j < i ==> !HasType(blocks[j], t)
  }

  /** `i` is the first block whose data has the key `p`. */
  predicate IsFirstWithParam(blocks: seq<Block>, p: string, i: int)
  {
    0 <= i < |blocks| && HasParam(blocks[i], p) && forall j :: 0 <= j < i ==> !HasParam(blocks[j], p)
  }

  /** The block's type, or `unknown` when it is unset. */
  function TypeOrUnknown(b: Block): string
  {
    match b.blockType
    case Some(t) => t
    case None => "unknown"
  }

  /** The index of the first block of type `t`, if any. */
  function FirstOfType(blocks: seq<Block>, t: string): (r: Option<nat>)
    ensures r.Some? ==> IsFirstOfType(blocks, t, r.value)
    ensures r.None? <==> forall i :: 0 <= i < |blocks| ==> !HasType(blocks[i], t)
  {
    if blocks == [] then None
    else if HasType(blocks[0], t) then Some(0)
    else
      match FirstOfType(blocks[1..], t)
      case None => None
      case Some(i) => Some(i + 1)
  }

  /** The location of the first block whose data has the key `p`, if any. */
  function ParameterLocation(blocks: seq<Block>, p: string): (r: Option<Location>)
    ensures r.Some? ==> IsFirstWithParam(blocks, p, r.value.blockIndex)
    ensures r.Some? ==> r.value.blockType == TypeOrUnknown(blocks[r.value.blockIndex])
    ensures r.None? <==> forall i :: 0 <= i < |blocks| ==> !HasParam(blocks[i], p)
  {
    if blocks == [] then None
    else if HasParam(blocks[0], p) then Some(Location(0, TypeOrUnknown(blocks[0])))
    else
      match ParameterLocation(blocks[1..], p)
      case None => None
      case Some(loc) => Some(Location(loc.blockIndex + 1, loc.blockType))
  }

  /** There is at most one first block of a type. */
  lemma FirstOfTypeUnique(blocks: seq<Block>, t: string, i: int, k: int)
    requires IsFirstOfType(blocks, t, i) && IsFirstOfType(blocks, t, k)
    ensures i == k
  {
  }

  /** `findBlockIndex`: a scan that returns at the first block of type `t`. */
  method FindBlockIndex(blocks: seq<Block>, t: string) returns (r: Option<nat>)
    ensures r == FirstOfType(blocks, t)
  {
    for i := 0 to |blocks|
      invariant forall j :: 0 <= j < i ==> !HasType(blocks[j], t)
    {
      if blocks[i].blockType.Some? && blocks[i].blockType.value == t {
        FirstOfTypeUnique(blocks, t, i, FirstOfType(blocks, t).value);
        return Some(i);
      }
    }
    return None;
  }

  /** `findParameterLocation`: a scan that returns at the first block whose data has the key `p`. */
  method FindParameterLocation(blocks: seq<Block>, p: string) returns (r: Option<Location>)
    ensures r == ParameterLocation(blocks, p)
  {
    for i := 0 to |blocks|
      invariant forall j :: 0 <= j < i ==> !HasParam(blocks[j], p)
    {
      if blocks[i].data.Some? && p in blocks[i].data.value {
        var blockType := if blocks[i].blockType.Some? then blocks[i].blockType.value else "unknown";
        assert IsFirstWithParam(blocks, p, ParameterLocation(blocks, p).value.blockIndex);
        return Some(Location(i, blockType));
      }
    }
    return None;
  }

  /** "Block type 'X' is not supported", naming the first block of that type when there is one. */
  function UnsupportedToolMessage(tool: string, blocks: seq<Block>): (r: string)
    ensures "Block type '" + tool + "' is not supported" <= r
    ensures (forall i :: 0 <= i < |blocks| ==> !HasType(blocks[i], tool)) ==>
      r == "Block type '" + tool + "' is not supported"
    ensures forall i :: IsFirstOfType(blocks, tool, i) ==>
      r == "Block type '" + tool + "' is not supported" + " (found in block " + NatToString(i) + ")"
  {
    match FirstOfType(blocks, tool)
    case None => "Block type '" + tool + "' is not supported"
    case Some(i) => "Block type '" + tool + "' is not supported" + " (found in block " + NatToString(i) + ")"
  }

  /** "<lead> 'X'", followed by the index and type of the first block whose data has the key X. */
  function ParameterMessage(lead: string, param: string, blocks: seq<Block>): (r: string)
    ensures lead + " '" + param + "'" <= r
    ensures (forall i :: 0 <= i < |blocks| ==> !HasParam(blocks[i], param)) ==>
      r == lead + " '" + param + "'"
    ensures forall i :: IsFirstWithParam(blocks, param, i) ==>
      r == lead + " '" + param + "'" + " in block " + NatToString(i) + " (type: " + TypeOrUnknown(blocks[i]) + ")"
  {
    match ParameterLocation(blocks, param)
    case None => lead + " '" + param + "'"
    case Some(loc) =>
      lead + " '" + param + "'" + " in block " + NatToString(loc.blockIndex) + " (type: " + loc.blockType + ")"
  }

  /**
   * The classification of the library's error text. The patterns are tried in
   * a fixed order and the first that matches decides.
   */
  function Classify(message: string): (r: Failure)
    ensures r.UnknownTool? <==> Matches(message, UnknownToolPrefix, UnknownToolSuffix)
    ensures r.MissingParam? <==>
      !Matches(message, UnknownToolPrefix, UnknownToolSuffix) &&
      Matches(message, MissingParamPrefix, ParamSuffix)
    ensures r.ExtraParam? <==>
      !Matches(message, UnknownToolPrefix, UnknownToolSuffix) &&
      !Matches(message, MissingParamPrefix, ParamSuffix) &&
      Matches(message, ExtraParamPrefix, ParamSuffix)
    ensures r.UnknownTool? ==> r.name != "" && Occurs(message, UnknownToolPrefix + r.name + UnknownToolSuffix)
    ensures r.MissingParam? ==> r.name != "" && Occurs(message, MissingParamPrefix + r.name + ParamSuffix)
    ensures r.ExtraParam? ==> r.name != "" && Occurs(message, ExtraParamPrefix + r.name + ParamSuffix)
    ensures r.Unrecognised? ==> r.message == message
  {
    match Capture(message, UnknownToolPrefix, UnknownToolSuffix)
    case Some(tool) => UnknownTool(tool)
    case None =>
      match Capture(message, MissingParamPrefix, ParamSuffix)
      case Some(param) => MissingParam(param)
      case None =>
        match Capture(message, ExtraParamPrefix, ParamSuffix)
        case Some(param) => ExtraParam(param)
        case None => Unrecognised(message)
  }

  /** The single message reported for a library error: `handleEditorJSException`. */
  function ExceptionMessage(message: string, blocks: seq<Block>): (r: string)
    ensures Classify(message).UnknownTool? ==> r == UnsupportedToolMessage(Classify(message).name, blocks)
    ensures Classify(message).MissingParam? ==> r == ParameterMessage(MissingParamLead, Classify(message).name, blocks)
    ensures Classify(message).ExtraParam? ==> r == ParameterMessage(ExtraParamLead, Classify(message).name, blocks)
    ensures (!Matches(message, UnknownToolPrefix, UnknownToolSuffix) &&
             !Matches(message, MissingParamPrefix, ParamSuffix) &&
             !Matches(message, ExtraParamPrefix, ParamSuffix)) ==> r == message
  {
    match Classify(message)
    case UnknownTool(tool) => UnsupportedToolMessage(tool, blocks)
    case MissingParam(param) => ParameterMessage(MissingParamLead, param, blocks)
    case ExtraParam(param) => ParameterMessage(ExtraParamLead, param, blocks)
    case Unrecognised(m) => m
  }

  /** The first character of the message built for a recognised kind of error. */
  function LeadingChar(f: Failure): char
  {
    match f
    case UnknownTool(_) => 'B'
    case MissingParam(_) => MissingParamLead[0]
    case ExtraParam(_) => ExtraParamLead[0]
    case Unrecognised(_) => ' '
  }

  /** The library's error text for an unknown tool `unknown_tool`, in the recognised shape. */
  const UnknownToolExampleText := UnknownToolPrefix + "unknown_tool" + UnknownToolSuffix

  lemma CaptureExample()
    ensures Capture(UnknownToolExampleText, UnknownToolPrefix, UnknownToolSuffix) == Some("unknown_tool")
  {
    var m := UnknownToolExampleText;
    assert |m| == 29;
    assert m[..6] == UnknownToolPrefix;
    assert m[6..18] == "unknown_tool";
    assert m[18..] == UnknownToolSuffix;
    assert MatchAt(m, UnknownToolPrefix, UnknownToolSuffix, 0, 18);
    assert MatchFrom(m, UnknownToolPrefix, UnknownToolSuffix, 0) == Some((0, 18));
  }

  lemma UnsupportedToolMessageExample()
    ensures UnsupportedToolMessage("unknown_tool", [Block(Some("unknown_tool"), Some(map[]))])
         == "Block type 'unknown_tool' is not supported" + " (found in block " + "0" + ")"
  {
    assert IsFirstOfType([Block(Some("unknown_tool"), Some(map[]))], "unknown_tool", 0);
    assert NatToString(0) == "0";
  }

  /**
   * A document whose only block has the unknown type `unknown_tool`: the
   * message names the type, says it is not supported, and points at block 0.
   */
  lemma UnknownToolExample()
    ensures ExceptionMessage(UnknownToolExampleText, [Block(Some("unknown_tool"), Some(map[]))])
         == "Block type 'unknown_tool' is not supported" + " (found in block " + "0" + ")"
  {
    assert Classify(UnknownToolExampleText) == UnknownTool("unknown_tool") by {
      CaptureExample();
    }
    UnsupportedToolMessageExample();
  }

  /** The three recognised kinds of error are told apart by their messages. */
  lemma RecognisedKindsDistinct(m1: string, m2: string, blocks: seq<Block>)
    requires !Classify(m1).Unrecognised? && !Classify(m2).Unrecognised?
    requires Classify(m1).UnknownTool? != Classify(m2).UnknownTool? ||
             Classify(m1).MissingParam? != Classify(m2).MissingParam?
    ensures ExceptionMessage(m1, blocks) != ExceptionMessage(m2, blocks)
  {
    assert ExceptionMessage(m1, blocks)[0] == LeadingChar(Classify(m1));
    assert ExceptionMessage(m2, blocks)[0] == LeadingChar(Classify(m2));
  }

  /**
   * The outcome of `validate`: the one failure message, or `None` when the
   * value passes. Each check runs only when the ones before it passed.
   */
  function Verdict(value: Value, decode: string -> Decoded, library: string -> Outcome): (r: Option<string>)
    ensures value.NotString? ==> r == Some(NotAStringMessage)
    ensures value.Str? && decode(value.text).Malformed? ==> r == Some(InvalidJsonMessage)
    ensures value.Str? && decode(value.text) == Document(None) ==> r == Some(NoBlocksMessage)
    ensures value.Str? && decode(value.text).Document? && decode(value.text).blocks.Some? &&
            library(value.text).Rejected? ==>
      r == Some(ExceptionMessage(library(value.text).message, decode(value.text).blocks.value))
    ensures r.None? <==>
      value.Str? && decode(value.text).Document? && decode(value.text).blocks.Some? &&
      library(value.text) == Accepted
  {
    match value
    case NotString => Some(NotAStringMessage)
    case Str(text) =>
      match decode(text)
      case Malformed => Some(InvalidJsonMessage)
      case Document(None) => Some(NoBlocksMessage)
      case Document(Some(blocks)) =>
        match library(text)
        case Accepted => None
        case Rejected(m) => Some(ExceptionMessage(m, blocks))
  }

  /** The JSON decoder is consulted only for a string, and only on that string. */
  lemma DecoderConsultedOnlyForStrings(value: Value, d1: string -> Decoded, d2: string -> Decoded, library: string -> Outcome)
    requires value.Str? ==> d1(value.text) == d2(value.text)
    ensures Verdict(value, d1, library) == Verdict(value, d2, library)
  {
  }

  /** The library is consulted only once a `blocks` array was found, and only on the raw text. */
  lemma LibraryConsultedOnlyWithBlocks(value: Value, decode: string -> Decoded, l1: string -> Outcome, l2: string -> Outcome)
    requires value.Str? && decode(value.text).Document? && decode(value.text).blocks.Some? ==>
      l1(value.text) == l2(value.text)
    ensures Verdict(value, decode, l1) == Verdict(value, decode, l2)
  {
  }

  /** The messages handed to `$fail` for one verdict: none, or exactly one. */
  function Reported(verdict: Option<string>): (r: seq<string>)
    ensures |r| <= 1
    ensures r == [] <==> verdict.None?
    ensures verdict.Some? ==> r == [verdict.value]
  {
    match verdict
    case None => []
    case Some(m) => [m]
  }

  /** Laravel's `$fail` closure: it records every message it is called with. */
  class FailCallback {
    var messages: seq<string>

    constructor ()
      ensures messages == []
    {
      messages := [];
    }

    method Fail(message: string)
      modifies this
      ensures messages == old(messages) + [message]
    {
      messages := messages + [message];
    }
  }

  /** `handleEditorJSException`: try the three patterns in order and report one message. */
  method HandleEditorJSException(message: string, blocks: seq<Block>, fail: FailCallback)
    modifies fail
    ensures fail.messages == old(fail.messages) + [ExceptionMessage(message, blocks)]
  {
    var tool := Capture(message, UnknownToolPrefix, UnknownToolSuffix);
    if tool.Some? {
      var invalidTool := tool.value;
      var blockIndex := FindBlockIndex(blocks, invalidTool);
      var lead := "Block type '" + invalidTool + "' is not supported";
      var suffix := if blockIndex.Some? then " (found in block " + NatToString(blockIndex.value) + ")" else "";
      assert lead + suffix == if blockIndex.Some? then lead + " (found in block " + NatToString(blockIndex.value) + ")" else lead;
      fail.Fail(lead + suffix);
      return;
    }
    var missing := Capture(message, MissingParamPrefix, ParamSuffix);
    if missing.Some? {
      var missingParam := missing.value;
      var location := FindParameterLocation(blocks, missingParam);
      var errorMessage := MissingParamLead + " '" + missingParam + "'";
      if location.Some? {
        errorMessage := errorMessage + " in block " + NatToString(location.value.blockIndex) +
          " (type: " + location.value.blockType + ")";
      }
      fail.Fail(errorMessage);
      return;
    }
    var extra := Capture(message, ExtraParamPrefix, ParamSuffix);
    if extra.Some? {
      var extraParam := extra.value;
      var location := FindParameterLocation(blocks, extraParam);
      var errorMessage := ExtraParamLead + " '" + extraParam + "'";
      if location.Some? {
        errorMessage := errorMessage + " in block " + NatToString(location.value.blockIndex) +
          " (type: " + location.value.blockType + ")";
      }
      fail.Fail(errorMessage);
      return;
    }
    fail.Fail(message);
  }

  /** `validate`: the ladder of checks, each stopping the rest; `$fail` is called at most once. */
  method Validate(value: Value, decode: string -> Decoded, library: string -> Outcome, fail: FailCallback)
    modifies fail
    ensures fail.messages == old(fail.messages) + Reported(Verdict(value, decode, library))
  {
    if !value.Str? {
      fail.Fail(NotAStringMessage);
      return;
    }
    var decodedData := decode(value.text);
    if decodedData.Malformed? {
      fail.Fail(InvalidJsonMessage);
      return;
    }
    if decodedData.blocks.None? {
      fail.Fail(NoBlocksMessage);
      return;
    }
    var outcome := library(value.text);
    if outcome.Rejected? {
      HandleEditorJSException(outcome.message, decodedData.blocks.value, fail);
    }
  }
}
