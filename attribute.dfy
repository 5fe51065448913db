/** process_attribute of mppq/utils/attribute.py: the ONNX `auto_pad`
    attribute of Conv and ConvTranspose (VALID, SAME_UPPER, SAME_LOWER)
    rewritten into an explicit `pads` attribute. The attribute dictionary
    is the caller's and is changed in place, so it is an object here. */
module ConvAttribute {
  import opened Wrappers

  /** An attribute value: a string or a list of integers. */
  datatype AttrValue = Text(s: string) | Ints(xs: seq<int>)

  type Attributes = map<string, AttrValue>

  datatype AttrError =
    /** `output_shape % 2` on a list raises TypeError (attribute.py:17). */
    | UnsupportedOperand
    /** ValueError for an auto_pad value that is not recognised (attribute.py:61). */
    | InvalidAutoPad(value: AttrValue)
    /** The TypeError, IndexError or ZeroDivisionError of the pad arithmetic:
        a strides, dilations, kernel or output_padding list that is absent,
        not integers, shorter than the input shape, or a zero stride. */
    | OperandError

  /** The dictionary that process_attribute updates in place. */
  class AttrDict {
    var entries: Attributes

    constructor (entries: Attributes)
      ensures this.entries == entries
    {
      this.entries := entries;
    }
  }

  /** `attr.get("auto_pad", "NOTSET")` (attribute.py:9). */
  function AutoPad(attr: Attributes): AttrValue {
    if "auto_pad" in attr then attr["auto_pad"] else Text("NOTSET")
  }

  /** `attr.get(key, default)` for a list-valued attribute; None when the
      value found is not an integer list. */
  function IntsOr(attr: Attributes, key: string, default: Option<seq<int>>): Option<seq<int>> {
    if key in attr then (if attr[key].Ints? then Some(attr[key].xs) else None) else default
  }

  /** The list is present and has an entry for each of the n spatial axes. */
  predicate Covers(xs: Option<seq<int>>, n: nat) {
    xs.Some? && |xs.value| >= n
  }

  /** Python's `a // b`: the floor of a / b. */
  function FloorDiv(a: int, b: int): (q: int)
    requires b != 0
    ensures b > 0 ==> b * q <= a < b * q + b
    ensures b < 0 ==> b * q >= a > b * q + b
  {
    if b > 0 then a / b else (-a) / (-b)
  }

  /** pad_needed for SAME_UPPER / SAME_LOWER (attribute.py:34-59): for a
      ConvTranspose the padding that makes the output `in * stride`, for any
      other operator the padding that makes the output `ceil(in / stride)`. */
  function SamePadNeeded(attr: Attributes, inputShape: seq<int>, kernelShape: Option<seq<int>>, isTranspose: bool)
    : Result<seq<int>, AttrError>
  {
    var n := |inputShape|;
    var strides := IntsOr(attr, "strides", Some([1, 1]));
    var dilations := IntsOr(attr, "dilations", Some([1, 1]));
    var kernels := IntsOr(attr, "kernel_shape", kernelShape);
    var outPad := IntsOr(attr, "output_padding", Some([0, 0]));
    if n == 0 then Ok([])
    else if !(Covers(strides, n) && Covers(dilations, n) && Covers(kernels, n)) then Err(OperandError)
    else
      var s, d, k := strides.value, dilations.value, kernels.value;
      if isTranspose then
        if !Covers(outPad, n) then Err(OperandError)
        else
          var op := outPad.value;
          Ok(seq(n, i requires 0 <= i < n =>
            (inputShape[i] - 1) * s[i] + d[i] * (k[i] - 1) + 1 + op[i] - inputShape[i] * s[i]))
      else if exists i :: 0 <= i < n && s[i] == 0 then Err(OperandError)
      else
        Ok(seq(n, i requires 0 <= i < n =>
          (FloorDiv(inputShape[i] + s[i] - 1, s[i]) - 1) * s[i] + d[i] * (k[i] - 1) + 1 - inputShape[i]))
  }

  /** The half of a needed padding that goes at the beginning of an axis:
      SAME_UPPER rounds it down, SAME_LOWER rounds it up (attribute.py:66). */
  function BeginPad(p: int, upper: bool): int {
    if upper then FloorDiv(p, 2) else FloorDiv(p + 1, 2)
  }

  /** The ONNX pads list [x1_begin, x2_begin, ..., x1_end, x2_end, ...]
      (attribute.py:64-68): begin and end of each axis add up to the needed
      padding; SAME_UPPER puts the odd extra at the end, SAME_LOWER at the
      beginning. */
  function Pads(padNeeded: seq<int>, upper: bool): (r: seq<int>)
    ensures |r| == 2 * |padNeeded|
    ensures forall i :: 0 <= i < |padNeeded| ==> r[i] + r[|padNeeded| + i] == padNeeded[i]
    ensures upper ==> forall i :: 0 <= i < |padNeeded| ==> 0 <= r[|padNeeded| + i] - r[i] <= 1
    ensures !upper ==> forall i :: 0 <= i < |padNeeded| ==> 0 <= r[i] - r[|padNeeded| + i] <= 1
  {
    var n := |padNeeded|;
    seq(2 * n, i requires 0 <= i < 2 * n =>
      if i < n then BeginPad(padNeeded[i], upper) else padNeeded[i - n] - BeginPad(padNeeded[i - n], upper))
  }

  /** The three properties of Pads determine it: no other list has them. */
  lemma PadsUnique(padNeeded: seq<int>, upper: bool, r: seq<int>)
    requires |r| == 2 * |padNeeded|
    requires forall i :: 0 <= i < |padNeeded| ==> r[i] + r[|padNeeded| + i] == padNeeded[i]
    requires upper ==> forall i :: 0 <= i < |padNeeded| ==> 0 <= r[|padNeeded| + i] - r[i] <= 1
    requires !upper ==> forall i :: 0 <= i < |padNeeded| ==> 0 <= r[i] - r[|padNeeded| + i] <= 1
    ensures r == Pads(padNeeded, upper)
  {
    var n := |padNeeded|;
    var q := Pads(padNeeded, upper);
    forall i | 0 <= i < 2 * n
      ensures r[i] == q[i]
    {
      var j := if i < n then i else i - n;
      assert r[j] + r[n + j] == q[j] + q[n + j];
      assert r[j] == q[j];
    }
  }

  /** The pads the source assembles: an appending loop for the begin values
      (attribute.py:64-66), then the end values (attribute.py:68). */
  method BuildPads(padNeeded: seq<int>, upper: bool) returns (pads: seq<int>)
    ensures pads == Pads(padNeeded, upper)
  {
    var begins: seq<int> := [];
    var i := 0;
    while i < |padNeeded|
      invariant 0 <= i <= |padNeeded|
      invariant |begins| == i
      invariant forall j :: 0 <= j < i ==> begins[j] == (if upper then padNeeded[j] else padNeeded[j] + 1) / 2
    {
      var item := padNeeded[i];
      begins := begins + [(if upper then item else item + 1) / 2];
      i := i + 1;
    }
    pads := begins + seq(|begins|, j requires 0 <= j < |begins| => padNeeded[j] - begins[j]);
  }

  /** What process_attribute leaves in the dictionary, or the error it
      raises (attribute.py:5-71). */
  function ProcessedAttributes(attr: Attributes, inputShape: seq<int>, kernelShape: Option<seq<int>>, opType: Option<string>)
    : Result<Attributes, AttrError>
  {
    var autoPad := AutoPad(attr);
    if opType == Some("ConvTranspose") && "output_shape" in attr then Err(UnsupportedOperand)
    else if autoPad == Text("NOTSET") then Ok(attr)
    else if "pads" in attr then Ok(attr)
    else if autoPad == Text("VALID") then Ok(attr["pads" := Ints([0, 0, 0, 0])] - {"auto_pad"})
    else if autoPad == Text("SAME_UPPER") || autoPad == Text("SAME_LOWER") then
      match SamePadNeeded(attr, inputShape, kernelShape, opType == Some("ConvTranspose"))
      case Err(e) => Err(e)
      case Ok(padNeeded) => Ok(attr["pads" := Ints(Pads(padNeeded, autoPad == Text("SAME_UPPER")))] - {"auto_pad"})
    else Err(InvalidAutoPad(autoPad))
  }

  /** process_attribute: the dictionary is updated in place; on an error
      it is left as it was. */
  method ProcessAttribute(attr: AttrDict, inputShape: seq<int>, kernelShape: Option<seq<int>>, opType: Option<string>)
    returns (outcome: Outcome<AttrError>)
    modifies attr
    ensures ProcessedAttributes(old(attr.entries), inputShape, kernelShape, opType).Ok? ==>
      outcome == Pass && attr.entries == ProcessedAttributes(old(attr.entries), inputShape, kernelShape, opType).value
    ensures ProcessedAttributes(old(attr.entries), inputShape, kernelShape, opType).Err? ==>
      outcome == Fail(ProcessedAttributes(old(attr.entries), inputShape, kernelShape, opType).error) &&
      attr.entries == old(attr.entries)
  {
    var autoPad := AutoPad(attr.entries);
    if opType == Some("ConvTranspose") && "output_shape" in attr.entries {
      return Fail(UnsupportedOperand);
    }
    if autoPad != Text("NOTSET") {
      if "pads" in attr.entries {
        // only a warning is logged
        return Pass;
      } else if autoPad == Text("VALID") {
        attr.entries := attr.entries["pads" := Ints([0, 0, 0, 0])];
        attr.entries := attr.entries - {"auto_pad"};
        return Pass;
      } else if autoPad == Text("SAME_UPPER") || autoPad == Text("SAME_LOWER") {
        var padNeeded := SamePadNeeded(attr.entries, inputShape, kernelShape, opType == Some("ConvTranspose"));
        if padNeeded.Err? {
          return Fail(padNeeded.error);
        }
        var pads := BuildPads(padNeeded.value, autoPad == Text("SAME_UPPER"));
        attr.entries := attr.entries["pads" := Ints(pads)];
        attr.entries := attr.entries - {"auto_pad"};
        return Pass;
      } else {
        return Fail(InvalidAutoPad(autoPad));
      }
    }
    return Pass;
  }

  // ---------------------------------------------------------------------
  // Properties of the rewrite.

  /** Without auto_pad (it defaults to NOTSET), or with NOTSET, the
      dictionary is left unchanged. */
  lemma NotSetLeavesAttributes(attr: Attributes, inputShape: seq<int>, kernelShape: Option<seq<int>>, opType: Option<string>)
    requires !(opType == Some("ConvTranspose") && "output_shape" in attr)
    requires "auto_pad" !in attr || attr["auto_pad"] == Text("NOTSET")
    ensures ProcessedAttributes(attr, inputShape, kernelShape, opType) == Ok(attr)
  {
  }

  /** An explicit pads attribute wins over any auto_pad, even an
      unrecognised one: nothing changes and nothing is raised. */
  lemma ExplicitPadsWin(attr: Attributes, inputShape: seq<int>, kernelShape: Option<seq<int>>, opType: Option<string>)
    requires !(opType == Some("ConvTranspose") && "output_shape" in attr)
    requires "pads" in attr
    ensures ProcessedAttributes(attr, inputShape, kernelShape, opType) == Ok(attr)
  {
  }

  /** VALID without pads sets four zero pads and removes auto_pad; an
      unrecognised value without pads is a ValueError. */
  lemma ValidAndUnrecognised(attr: Attributes, inputShape: seq<int>, kernelShape: Option<seq<int>>, opType: Option<string>)
    requires !(opType == Some("ConvTranspose") && "output_shape" in attr)
    requires "pads" !in attr && "auto_pad" in attr
    ensures attr["auto_pad"] == Text("VALID") ==>
      ProcessedAttributes(attr, inputShape, kernelShape, opType) == Ok((attr - {"auto_pad"})["pads" := Ints([0, 0, 0, 0])])
    ensures attr["auto_pad"] !in {Text("NOTSET"), Text("VALID"), Text("SAME_UPPER"), Text("SAME_LOWER")} ==>
      ProcessedAttributes(attr, inputShape, kernelShape, opType) == Err(InvalidAutoPad(attr["auto_pad"]))
  {
    if attr["auto_pad"] == Text("VALID") {
      assert attr["pads" := Ints([0, 0, 0, 0])] - {"auto_pad"} == (attr - {"auto_pad"})["pads" := Ints([0, 0, 0, 0])];
    }
  }

  /** SAME_UPPER / SAME_LOWER without pads, when the arithmetic succeeds:
      pads has 2n entries, all begin values first; begin and end of an axis
      add up to the needed padding; SAME_UPPER has end >= begin and
      SAME_LOWER has begin >= end (never by more than one); auto_pad is
      removed and every other entry is kept. */
  lemma SamePadsSplit(attr: Attributes, inputShape: seq<int>, kernelShape: Option<seq<int>>, opType: Option<string>)
    requires !(opType == Some("ConvTranspose") && "output_shape" in attr)
    requires "pads" !in attr
    requires AutoPad(attr) == Text("SAME_UPPER") || AutoPad(attr) == Text("SAME_LOWER")
    requires SamePadNeeded(attr, inputShape, kernelShape, opType == Some("ConvTranspose")).Ok?
    ensures var padNeeded := SamePadNeeded(attr, inputShape, kernelShape, opType == Some("ConvTranspose")).value;
      var n := |inputShape|;
      var r := ProcessedAttributes(attr, inputShape, kernelShape, opType);
      && r.Ok? && "auto_pad" !in r.value && "pads" in r.value && r.value["pads"].Ints?
      && (forall key :: key in attr && key != "auto_pad" ==> key in r.value)
      && (forall key :: key in r.value && key != "pads" ==> key in attr && r.value[key] == attr[key])
      && var pads := r.value["pads"].xs;
      && |padNeeded| == n && |pads| == 2 * n
      && (forall i :: 0 <= i < n ==> pads[i] + pads[n + i] == padNeeded[i])
      && (AutoPad(attr) == Text("SAME_UPPER") ==> forall i :: 0 <= i < n ==> 0 <= pads[n + i] - pads[i] <= 1)
      && (AutoPad(attr) == Text("SAME_LOWER") ==> forall i :: 0 <= i < n ==> 0 <= pads[i] - pads[n + i] <= 1)
  {
  }

  /** ceil(a / s) for a positive stride, as `(a + s - 1) // s` computes it:
      the least q with q * s >= a. */
  lemma CeilDivision(a: int, s: int)
    requires s > 0
    ensures var q := FloorDiv(a + s - 1, s); q * s >= a && (q - 1) * s < a
  {
  }

  /** The output size ONNX gives a Conv with explicit pads,
      floor((in + pads - (d * (k - 1) + 1)) / s) + 1. */
  function ConvOutputSize(inSize: int, padTotal: int, s: int, d: int, k: int): int
    requires s != 0
  {
    FloorDiv(inSize + padTotal - (d * (k - 1) + 1), s) + 1
  }

  /** The output size ONNX gives a ConvTranspose with explicit pads,
      s * (in - 1) + output_padding + (d * (k - 1) + 1) - pads. */
  function ConvTransposeOutputSize(inSize: int, padTotal: int, s: int, d: int, k: int, outPad: int): int {
    s * (inSize - 1) + outPad + (d * (k - 1) + 1) - padTotal
  }

  /** What SAME padding is for: with the computed padding a Conv with a
      positive stride produces ceil(in / stride) outputs per axis and a
      ConvTranspose produces in * stride outputs per axis. */
  lemma SamePaddingGivesSameOutputSize(attr: Attributes, inputShape: seq<int>, kernelShape: Option<seq<int>>, isTranspose: bool, i: int)
    requires SamePadNeeded(attr, inputShape, kernelShape, isTranspose).Ok?
    requires 0 <= i < |inputShape|
    ensures var padNeeded := SamePadNeeded(attr, inputShape, kernelShape, isTranspose).value;
      var s := IntsOr(attr, "strides", Some([1, 1])).value[i];
      var d := IntsOr(attr, "dilations", Some([1, 1])).value[i];
      var k := IntsOr(attr, "kernel_shape", kernelShape).value[i];
      && |padNeeded| == |inputShape|
      && (isTranspose ==>
            ConvTransposeOutputSize(inputShape[i], padNeeded[i], s, d, k, IntsOr(attr, "output_padding", Some([0, 0])).value[i])
            == inputShape[i] * s)
      && (!isTranspose && s > 0 ==>
            var q := ConvOutputSize(inputShape[i], padNeeded[i], s, d, k);
            q * s >= inputShape[i] && (q - 1) * s < inputShape[i])
  {
    var padNeeded := SamePadNeeded(attr, inputShape, kernelShape, isTranspose).value;
    var s := IntsOr(attr, "strides", Some([1, 1])).value[i];
    var d := IntsOr(attr, "dilations", Some([1, 1])).value[i];
    var k := IntsOr(attr, "kernel_shape", kernelShape).value[i];
    if isTranspose {
      var op := IntsOr(attr, "output_padding", Some([0, 0])).value[i];
      assert padNeeded[i] == (inputShape[i] - 1) * s + d * (k - 1) + 1 + op - inputShape[i] * s;
      TransposeArithmetic(inputShape[i], s, d * (k - 1), op, padNeeded[i]);
    } else if s > 0 {
      var o := FloorDiv(inputShape[i] + s - 1, s);
      assert padNeeded[i] == (o - 1) * s + d * (k - 1) + 1 - inputShape[i];
      ConvArithmetic(inputShape[i], s, d, k, o, padNeeded[i]);
    }
  }

  lemma TransposeArithmetic(inSize: int, s: int, e: int, op: int, p: int)
    requires p == (inSize - 1) * s + e + 1 + op - inSize * s
    ensures s * (inSize - 1) + op + (e + 1) - p == inSize * s
  {
    assert s * (inSize - 1) == (inSize - 1) * s;
  }

  lemma ConvArithmetic(inSize: int, s: int, d: int, k: int, o: int, p: int)
    requires s > 0
    requires o == FloorDiv(inSize + s - 1, s)
    requires p == (o - 1) * s + d * (k - 1) + 1 - inSize
    ensures var q := ConvOutputSize(inSize, p, s, d, k); q * s >= inSize && (q - 1) * s < inSize
  {
    var e := d * (k - 1);
    assert inSize + p - (e + 1) == (o - 1) * s;
    FloorDivExact(o - 1, s);
    assert ConvOutputSize(inSize, p, s, d, k) == o;
    CeilDivision(inSize, s);
  }

  lemma FloorDivExact(q: int, s: int)
    requires s > 0
    ensures FloorDiv(q * s, s) == q
  {
  }

  /** The defaults: with no strides or dilations attributes a 2-D input
      uses stride 1 and dilation 1, and the kernel falls back to the
      kernel_shape argument, so a Conv needs k - 1 padding per axis. */
  lemma DefaultsGiveKernelMinusOne(attr: Attributes, inputShape: seq<int>, k: seq<int>)
    requires "strides" !in attr && "dilations" !in attr && "kernel_shape" !in attr
    requires |inputShape| == 2 && |k| >= 2
    ensures SamePadNeeded(attr, inputShape, Some(k), false) == Ok([k[0] - 1, k[1] - 1])
  {
    var r := SamePadNeeded(attr, inputShape, Some(k), false);
    var ones: seq<int> := [1, 1];
    assert IntsOr(attr, "strides", Some([1, 1])) == Some(ones);
    assert !(exists i :: 0 <= i < 2 && ones[i] == 0);
    assert FloorDiv(inputShape[0] + 1 - 1, 1) == inputShape[0];
    assert FloorDiv(inputShape[1] + 1 - 1, 1) == inputShape[1];
    assert r.Ok? && |r.value| == 2;
    assert r.value[0] == k[0] - 1;
    assert r.value[1] == k[1] - 1;
    assert r.value == [k[0] - 1, k[1] - 1];
  }
}
