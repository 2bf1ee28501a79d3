/** File numbering and canvas arithmetic of app/services/image_generator.py. */
module ImageGenerator {
  import opened Wrappers
  import opened Strings

  const TargetWidth: nat := 1080
  const TargetHeight: nat := 1920

  /** A directory entry `get_next_sequence_number` looks at. */
  predicate IsImageName(f: string) {
    EndsWith(f, ".png") && StartsWith(f, "image_")
  }

  /** `int(f.replace('image_', '').replace('.png', ''))`, with `int` restricted
      to decimal digit strings; None where it raises `ValueError`. */
  function SequenceOf(f: string): Option<nat> {
    ParseNat(RemoveAll(RemoveAll(f, "image_"), ".png"))
  }

  /** Some image name of the listing denotes `k`. */
  predicate Numbered(listing: seq<string>, k: nat) {
    exists f :: f in listing && IsImageName(f) && SequenceOf(f) == Some(k)
  }

  /** `[f for f in listing if f.endswith('.png') and f.startswith('image_')]`. */
  function ImageNames(listing: seq<string>): (r: seq<string>)
    ensures forall f :: f in r <==> f in listing && IsImageName(f)
  {
    if listing == [] then []
    else ImageNames(listing[..|listing| - 1])
         + (if IsImageName(listing[|listing| - 1]) then [listing[|listing| - 1]] else [])
  }

  /** Python's `max` of a non-empty list. */
  function Max(xs: seq<nat>): (m: nat)
    requires xs != []
    ensures m in xs && forall x :: x in xs ==> x <= m
  {
    if |xs| == 1 then xs[0]
    else
      var m := Max(xs[1..]);
      assert forall x :: x in xs[1..] ==> x in xs;
      assert forall x :: x in xs ==> x == xs[0] || x in xs[1..];
      if xs[0] > m then xs[0] else m
  }

  /** `get_next_sequence_number` over the names of the directory: one more
      than the largest number an image name parses to, or 1 when none does. */
  method NextSequenceNumber(listing: seq<string>) returns (n: nat)
    ensures n >= 1
    ensures forall f :: f in listing && IsImageName(f) && SequenceOf(f).Some? ==> SequenceOf(f).value < n
    ensures n == 1 || Numbered(listing, n - 1)
  {
    var files := ImageNames(listing);
    if files == [] {
      return 1;
    }
    var sequenceNumbers: seq<nat> := [];
    for i := 0 to |files|
      invariant forall k :: k in sequenceNumbers ==> Numbered(listing, k)
      invariant forall j :: 0 <= j < i && SequenceOf(files[j]).Some? ==> SequenceOf(files[j]).value in sequenceNumbers
    {
      var num := SequenceOf(files[i]);
      if num.Some? {
        assert files[i] in listing && IsImageName(files[i]);
        sequenceNumbers := sequenceNumbers + [num.value];
      }
    }
    if sequenceNumbers != [] {
      n := Max(sequenceNumbers) + 1;
    } else {
      n := 1;
    }
    forall f | f in listing && IsImageName(f) && SequenceOf(f).Some?
      ensures SequenceOf(f).value < n
    {
      var j :| 0 <= j < |files| && files[j] == f;
    }
  }

  /** `f"image_{seq_num:03d}.png"`. */
  function ImageFileName(seqNum: nat): string {
    "image_" + ZeroPad(seqNum, 3) + ".png"
  }

  /** Removing the prefix and the suffix from a name around a digit string
      leaves the digits. */
  lemma {:induction false} StripImageName(z: string)
    requires AllDigits(z)
    ensures IsImageName("image_" + z + ".png")
    ensures RemoveAll(RemoveAll("image_" + z + ".png", "image_"), ".png") == z
  {
    var name := "image_" + z + ".png";
    assert 'i' !in z && '.' !in z by {
      assert forall i :: 0 <= i < |z| ==> IsDigit(z[i]);
    }
    assert StartsWith(name, "image_") by {
      assert name[..6] == "image_";
    }
    assert EndsWith(name, ".png") by {
      assert name[|name| - 4..] == ".png";
    }
    RemoveImagePrefix(z);
    RemovePngSuffix(z);
  }

  lemma {:induction false} RemoveImagePrefix(z: string)
    requires 'i' !in z
    ensures RemoveAll("image_" + z + ".png", "image_") == z + ".png"
  {
    assert "image_" + z + ".png" == "image_" + (z + ".png");
    RemoveAllLeading("image_", z + ".png");
    RemoveAllSkips(z + ".png", "", "image_");
    assert z + ".png" + "" == z + ".png";
    assert RemoveAll("", "image_") == "";
  }

  lemma {:induction false} RemovePngSuffix(z: string)
    requires '.' !in z
    ensures RemoveAll(z + ".png", ".png") == z
  {
    RemoveAllSkips(z, ".png", ".png");
    RemoveAllLeading(".png", "");
    assert ".png" + "" == ".png";
    assert RemoveAll("", ".png") == "";
    assert z + "" == z;
  }

  /** A generated name is an image name and parses back to its number. */
  lemma {:induction false} SequenceOfImageFileName(seqNum: nat)
    ensures IsImageName(ImageFileName(seqNum))
    ensures SequenceOf(ImageFileName(seqNum)) == Some(seqNum)
  {
    StripImageName(ZeroPad(seqNum, 3));
    ParseZeroPad(seqNum, 3);
  }

  /** The file `generate_image` writes: the next number in the directory,
      which names no file already there. */
  method NextImagePath(outputDir: string, listing: seq<string>) returns (seqNum: nat, path: string)
    ensures seqNum >= 1 && path == PathJoin(outputDir, ImageFileName(seqNum))
    ensures ImageFileName(seqNum) !in listing
  {
    seqNum := NextSequenceNumber(listing);
    SequenceOfImageFileName(seqNum);
    path := PathJoin(outputDir, ImageFileName(seqNum));
  }

  datatype Canvas = Canvas(newWidth: nat, newHeight: nat, canvasWidth: nat, canvasHeight: nat)

  /** `resize_to_9_16` on a `width` x `height` image: the picture is scaled
      to the full target width, keeping its aspect ratio (the height rounded
      down), and pasted on a white canvas at least the target height tall. */
  function ResizeTo916(width: nat, height: nat): (c: Canvas)
    requires width > 0
    ensures c.newWidth == TargetWidth && c.canvasWidth == TargetWidth
    ensures c.newHeight * width <= TargetWidth * height < (c.newHeight + 1) * width
    ensures c.canvasHeight >= TargetHeight && c.canvasHeight >= c.newHeight
    ensures c.canvasHeight == TargetHeight || c.canvasHeight == c.newHeight
  {
    var newHeight := (TargetWidth * height) / width;
    var canvasHeight := if newHeight >= TargetHeight then newHeight else TargetHeight;
    Canvas(TargetWidth, newHeight, TargetWidth, canvasHeight)
  }
}
