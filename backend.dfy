/**
 * The string and list post-processing of the captioning service
 * (backend/main.py): the content-type gate of the upload endpoint, the prompt
 * built from the detected colour names, the clean-up of the generated caption,
 * the loop that names the dominant colours, the loop that builds the CSS3
 * colour table and the nearest-colour lookup over that table. Image decoding,
 * clustering and caption generation are not modelled: their results enter as
 * parameters.
 */
module Backend {
  import opened Strings

  /** What a step of the service produced: a value, or a raised exception
      (its message is what `str(e)` gives). */
  datatype Try<T> = Returned(value: T) | Raised(message: string)

  /** A colour with integer channels (a cluster centre after the cast to int). */
  datatype Rgb = Rgb(red: int, green: int, blue: int)

  /** The HTTP reply of the upload endpoint. */
  datatype Reply =
    | Captioned(caption: string, detectedColors: seq<string>)
    | Rejected(status: int, detail: string)

  const NotAnImage: string := "File must be an image."
  const ProcessingErrorPrefix: string := "Error processing image: "
  const UnknownColor: string := "Unknown Color"

  // ---------------------------------------------------------------------
  // The prompt

  const PromptStart: string := "A photo of a scene"
  const ColorHintStart: string := " with colors like "
  const MaxHintedColors: nat := 3

  /** The names that go into the prompt: at most the first three. */
  function HintedColors(colors: seq<string>): (r: seq<string>)
    ensures |r| <= MaxHintedColors && |r| <= |colors| && r == colors[..|r|]
    ensures |colors| <= MaxHintedColors ==> r == colors
    ensures |colors| > MaxHintedColors ==> |r| == MaxHintedColors
  {
    if |colors| <= MaxHintedColors then colors else colors[..MaxHintedColors]
  }

  /** The text prompt handed to the captioning model: the bare sentence
      when no colour was detected, otherwise the sentence with the colour
      hint, ending in a full stop. */
  function Prompt(colors: seq<string>): (r: string)
    ensures colors == [] ==> r == "A photo of a scene."
    ensures colors != [] ==> StartsWith(r, "A photo of a scene with colors like ") && r[|r| - 1] == '.'
  {
    var hint := if |colors| > 0 then ColorHintStart + Join(HintedColors(colors), ListSeparator) else "";
    PromptStart + hint + "."
  }

  /** Reads the colour names back out of a prompt; the partner of Prompt. */
  function PromptColors(prompt: string): seq<string>
  {
    var head := PromptStart + ColorHintStart;
    if StartsWith(prompt, head) && |prompt| > |head| then
      Unjoin(prompt[|head|..|prompt| - 1])
    else []
  }

  /** The prompt names exactly the first (at most) three colours, in order:
      whatever follows the third never reaches the model. */
  lemma {:induction false} PromptNamesFirstThree(colors: seq<string>)
    requires CommaFree(colors)
    ensures PromptColors(Prompt(colors)) == HintedColors(colors)
  {
    var head := PromptStart + ColorHintStart;
    var p := Prompt(colors);
    if |colors| == 0 {
      assert p == "A photo of a scene.";
      assert !StartsWith(p, head) by {
        assert |p| < |head|;
      }
    } else {
      var hinted := HintedColors(colors);
      assert CommaFree(hinted) by {
        forall i | 0 <= i < |hinted| ensures ',' !in hinted[i] {
          assert hinted[i] == colors[i];
        }
      }
      var body := Join(hinted, ListSeparator);
      assert p == head + body + ".";
      assert p[..|head|] == head;
      assert p[|head|..|p| - 1] == body;
      assert PromptColors(p) == Unjoin(body);
      UnjoinJoin(hinted);
    }
  }

  /** Two colour lists that agree on their first three names give the same prompt. */
  lemma PromptIgnoresLaterColors(colors: seq<string>, others: seq<string>)
    requires |colors| >= MaxHintedColors && |others| >= MaxHintedColors
    requires colors[..MaxHintedColors] == others[..MaxHintedColors]
    ensures Prompt(colors) == Prompt(others)
  {
  }

  // ---------------------------------------------------------------------
  // Caption clean-up

  const CommaPrefix: string := "a photo of, "
  const SpacePrefix: string := "a photo of "
  const BarePrefix: string := "a photo of"

  /** "a photo of" begins both longer prefixes. */
  lemma PrefixesNest(s: string)
    ensures StartsWith(s, CommaPrefix) ==> StartsWith(s, BarePrefix)
    ensures StartsWith(s, SpacePrefix) ==> StartsWith(s, BarePrefix)
  {
  }

  /** The first of the three prefixes that the lower-cased caption starts
      with is cut from the ORIGINAL caption, and what is left is stripped;
      a caption with none of them is returned untouched. */
  function DropPhotoPrefix(caption: string): (r: string)
    ensures !StartsWith(Lower(caption), BarePrefix) ==> r == caption
    ensures StartsWith(Lower(caption), BarePrefix) ==>
      r == Strip(caption[(if StartsWith(Lower(caption), CommaPrefix) then |CommaPrefix| else |BarePrefix|)..])
    ensures StartsWith(Lower(caption), BarePrefix) ==>
      |r| <= |caption| - |BarePrefix| && Strip(r) == r
  {
    var lowered := Lower(caption);
    PrefixesNest(lowered);
    if StartsWith(lowered, CommaPrefix) then
      StripIdempotent(caption[|CommaPrefix|..]);
      Strip(caption[|CommaPrefix|..])
    else if StartsWith(lowered, SpacePrefix) then
      StripIdempotent(caption[|SpacePrefix|..]);
      SpacePrefixSameAsBare(caption);
      Strip(caption[|SpacePrefix|..])
    else if StartsWith(lowered, BarePrefix) then
      StripIdempotent(caption[|BarePrefix|..]);
      Strip(caption[|BarePrefix|..])
    else caption
  }

  /** Upper-cases the first character and keeps the rest. */
  function Capitalize(s: string): (r: string)
    ensures |r| == |s|
    ensures |s| > 0 ==> r[0] == UpperChar(s[0]) && r[1..] == s[1..]
  {
    if |s| == 0 then s else [UpperChar(s[0])] + s[1..]
  }

  /** The caption the service returns for the model's raw output. */
  function CleanCaption(raw: string): (r: string)
    ensures |r| <= |raw|
    ensures r == [] || !('a' <= r[0] <= 'z')
    ensures !StartsWith(Lower(raw), BarePrefix) ==> r == Capitalize(raw)
    ensures StartsWith(Lower(raw), BarePrefix) ==>
      r == Capitalize(Strip(raw[(if StartsWith(Lower(raw), CommaPrefix) then |CommaPrefix| else |BarePrefix|)..]))
    ensures StartsWith(Lower(raw), BarePrefix) ==> |r| <= |raw| - |BarePrefix|
  {
    var dropped := DropPhotoPrefix(raw);
    var cut := if StartsWith(Lower(raw), CommaPrefix) then |CommaPrefix| else |BarePrefix|;
    assert StartsWith(Lower(raw), BarePrefix) ==> dropped == Strip(raw[cut..]);
    Capitalize(dropped)
  }

  /** Once ", " is ruled out, cutting "a photo of " and cutting "a photo of"
      give the same caption: the eleventh character is a space, which the
      strip removes anyway. Only the comma form needs its own branch. */
  lemma SpacePrefixSameAsBare(caption: string)
    requires StartsWith(Lower(caption), SpacePrefix)
    ensures Strip(caption[|SpacePrefix|..]) == Strip(caption[|BarePrefix|..])
  {
    var k := |BarePrefix|;
    assert LowerChar(caption[k]) == Lower(caption)[k] == ' ';
    assert caption[k] == ' ';
    assert caption[k..] == [caption[k]] + caption[k + 1..];
    StripSkipsSpace(caption[k], caption[k + 1..]);
  }

  /** After a prefix is cut, the caption does not begin with whitespace. */
  lemma CleanCaptionNoLeadingSpace(raw: string)
    requires StartsWith(Lower(raw), BarePrefix)
    ensures CleanCaption(raw) == [] || !IsSpace(CleanCaption(raw)[0])
  {
    var dropped := DropPhotoPrefix(raw);
    assert dropped == [] || !IsSpace(dropped[0]) by {
      assert Strip(dropped) == dropped;
    }
  }

  /** The lower-cased start of `head + rest` is the lower-cased `head`. */
  lemma LowerHead(head: string, rest: string)
    ensures Lower(head + rest)[..|head|] == Lower(head)
  {
    assert forall i :: 0 <= i < |head| ==> (head + rest)[i] == head[i];
  }

  /** The comma prefix is cut in any mix of cases, and the cut is made in
      the original caption: what follows keeps its own case. */
  lemma CommaPrefixIgnoresCase(head: string, rest: string)
    requires Lower(head) == CommaPrefix
    ensures DropPhotoPrefix(head + rest) == Strip(rest)
  {
    LowerHead(head, rest);
    assert (head + rest)[|CommaPrefix|..] == rest;
  }

  /** Only the first matching prefix is removed: after "a photo of " (in any
      case) the rest is only stripped, even when it begins with another
      "a photo of". */
  lemma FirstPrefixOnly(head: string, rest: string)
    requires Lower(head) == SpacePrefix
    ensures DropPhotoPrefix(head + rest) == Strip(rest)
  {
    var c := head + rest;
    LowerHead(head, rest);
    assert Lower(c)[..|BarePrefix|] == BarePrefix;
    assert !StartsWith(Lower(c), CommaPrefix) by {
      assert Lower(c)[|BarePrefix|] == ' ';
    }
    assert c[|SpacePrefix|..] == rest;
    SpacePrefixSameAsBare(c);
  }

  /** A caption that is the bare prefix (in any case) followed only by
      whitespace comes out empty, and the empty caption is left as it is. */
  lemma OnlyPrefixBecomesEmpty(head: string, spaces: string)
    requires Lower(head) == BarePrefix
    requires forall i :: 0 <= i < |spaces| ==> IsSpace(spaces[i])
    ensures CleanCaption(head + spaces) == ""
  {
    var c := head + spaces;
    LowerHead(head, spaces);
    assert |head| == |BarePrefix|;
    assert StartsWith(Lower(c), BarePrefix);
    assert !StartsWith(Lower(c), CommaPrefix) by {
      if |c| > |BarePrefix| {
        assert Lower(c)[|BarePrefix|] == LowerChar(spaces[0]) != ',';
      }
    }
    assert c[|BarePrefix|..] == spaces;
    StripAllSpace(spaces);
    assert DropPhotoPrefix(c) == Strip(spaces) == "";
  }

  // ---------------------------------------------------------------------
  // The upload endpoint

  /** The endpoint for one upload. `contentType` is the declared type of the
      upload; `colors` is what reading, decoding and colour detection gave;
      `generate` maps a prompt to the decoded output of the captioning model. */
  function UploadImage(contentType: string, colors: Try<seq<string>>, generate: string -> Try<string>): (r: Reply)
    ensures r == Rejected(400, NotAnImage) <==> !StartsWith(contentType, "image/")
    ensures r.Rejected? ==> r.status == 400 || r.status == 500
    ensures r.Rejected? && r.status == 500 ==>
      StartsWith(r.detail, ProcessingErrorPrefix) &&
      (colors.Raised? || generate(Prompt(colors.value)).Raised?)
    ensures StartsWith(contentType, "image/") && r.Rejected? ==> r.status == 500
    ensures StartsWith(contentType, "image/") && colors.Raised? ==>
      r == Rejected(500, ProcessingErrorPrefix + colors.message)
    ensures StartsWith(contentType, "image/") && colors.Returned? && generate(Prompt(colors.value)).Raised? ==>
      r == Rejected(500, ProcessingErrorPrefix + generate(Prompt(colors.value)).message)
    ensures StartsWith(contentType, "image/") && colors.Returned? && generate(Prompt(colors.value)).Returned? ==>
      r.Captioned?
    ensures r.Captioned? ==>
      && colors.Returned? && r.detectedColors == colors.value
      && generate(Prompt(colors.value)).Returned?
      && r.caption == CleanCaption(generate(Prompt(colors.value)).value)
  {
    if !StartsWith(contentType, "image/") then Rejected(400, NotAnImage)
    else match colors
      case Raised(e) => Rejected(500, ProcessingErrorPrefix + e)
      case Returned(names) =>
        match generate(Prompt(names))
        case Raised(e) => Rejected(500, ProcessingErrorPrefix + e)
        case Returned(raw) => Captioned(CleanCaption(raw), names)
  }

  /** The gate comes first: a non-image upload is rejected whatever the
      processing would have done. */
  lemma GateBeforeProcessing(contentType: string, colors: Try<seq<string>>, colors': Try<seq<string>>,
                             generate: string -> Try<string>, generate': string -> Try<string>)
    requires !StartsWith(contentType, "image/")
    ensures UploadImage(contentType, colors, generate) == UploadImage(contentType, colors', generate')
  {
  }

  // ---------------------------------------------------------------------
  // Naming the dominant colours

  /** The name that goes into the list for one centre. */
  function NameOrUnknown(named: Try<string>): string
  {
    match named
    case Returned(name) => name
    case Raised(_) => UnknownColor
  }

  /** One name per cluster centre, in the centres' order; a centre whose
      naming raises gets "Unknown Color" in its place. */
  method NameColors(centres: seq<Rgb>, closestName: Rgb -> Try<string>) returns (names: seq<string>)
    ensures |names| == |centres|
    ensures forall i :: 0 <= i < |centres| ==>
      names[i] == (if closestName(centres[i]).Returned? then closestName(centres[i]).value else UnknownColor)
  {
    names := [];
    for k := 0 to |centres|
      invariant |names| == k
      invariant forall i :: 0 <= i < k ==> names[i] == NameOrUnknown(closestName(centres[i]))
    {
      var named := closestName(centres[k]);
      match named {
        case Returned(name) => names := names + [name];
        case Raised(_) => names := names + [UnknownColor];
      }
    }
  }

  // ---------------------------------------------------------------------
  // The CSS3 colour table and the nearest-colour lookup

  /** Two parallel lists: rgbs[i] is the colour named names[i]. */
  datatype ColorTable = ColorTable(rgbs: seq<Rgb>, names: seq<string>)

  /** The names, in order, whose conversion to RGB succeeds. */
  function Resolvable(names: seq<string>, nameToRgb: string -> Try<Rgb>): seq<string>
    decreases |names|
  {
    if |names| == 0 then []
    else
      var last := names[|names| - 1];
      Resolvable(names[..|names| - 1], nameToRgb) + (if nameToRgb(last).Returned? then [last] else [])
  }

  /** A name is in the table exactly when it is one of the given names and
      its conversion succeeds. */
  lemma {:induction false} ResolvableMembers(names: seq<string>, nameToRgb: string -> Try<Rgb>, x: string)
    ensures x in Resolvable(names, nameToRgb) <==> x in names && nameToRgb(x).Returned?
    decreases |names|
  {
    if |names| > 0 {
      var init := names[..|names| - 1];
      ResolvableMembers(init, nameToRgb, x);
      assert names == init + [names[|names| - 1]];
    }
  }

  /** Builds the table from the CSS3 names, skipping a name whose conversion
      raises; the two lists stay aligned, as the lookup relies on. */
  method BuildColorTable(cssNames: seq<string>, nameToRgb: string -> Try<Rgb>) returns (table: ColorTable)
    ensures |table.rgbs| == |table.names|
    ensures table.names == Resolvable(cssNames, nameToRgb)
    ensures forall i :: 0 <= i < |table.names| ==> nameToRgb(table.names[i]) == Returned(table.rgbs[i])
  {
    var rgbs: seq<Rgb> := [];
    var names: seq<string> := [];
    for k := 0 to |cssNames|
      invariant |rgbs| == |names|
      invariant names == Resolvable(cssNames[..k], nameToRgb)
      invariant forall i :: 0 <= i < |names| ==> nameToRgb(names[i]) == Returned(rgbs[i])
    {
      assert cssNames[..k + 1][..k] == cssNames[..k];
      var converted := nameToRgb(cssNames[k]);
      match converted {
        case Returned(rgb) =>
          rgbs := rgbs + [rgb];
          names := names + [cssNames[k]];
        case Raised(_) =>
      }
    }
    assert cssNames[..|cssNames|] == cssNames;
    table := ColorTable(rgbs, names);
  }

  /** The square of the Euclidean distance, which orders colours as the
      distance itself does. */
  function SquaredDistance(a: Rgb, b: Rgb): int
  {
    (a.red - b.red) * (a.red - b.red)
      + (a.green - b.green) * (a.green - b.green)
      + (a.blue - b.blue) * (a.blue - b.blue)
  }

  /** The nearest-neighbour query: the index of a table colour nearest to
      `rgb`, and the name at that index. */
  method ClosestColorName(table: ColorTable, rgb: Rgb) returns (index: nat, name: string)
    requires |table.rgbs| == |table.names| > 0
    ensures index < |table.names| && name == table.names[index]
    ensures forall j :: 0 <= j < |table.rgbs| ==>
      SquaredDistance(rgb, table.rgbs[index]) <= SquaredDistance(rgb, table.rgbs[j])
  {
    index := 0;
    var best := SquaredDistance(rgb, table.rgbs[0]);
    for k := 1 to |table.rgbs|
      invariant index < k
      invariant best == SquaredDistance(rgb, table.rgbs[index])
      invariant forall j :: 0 <= j < k ==> best <= SquaredDistance(rgb, table.rgbs[j])
    {
      var d := SquaredDistance(rgb, table.rgbs[k]);
      if d < best {
        index, best := k, d;
      }
    }
    name := table.names[index];
  }
}
