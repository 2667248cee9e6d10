/**
 * Choosing the QR payload of an image (src/qr_decode.rs). Loading the image
 * and finding and decoding its grids belong to the image and rqrr crates; the
 * model starts from what they produce: a load error, or one decode outcome
 * per detected grid, in detection order.
 */
module QrDecode {
  import opened Results

  datatype QrDecodeError = IOError(cause: string) | NotFound | DecodeFailed

  const IOErrorPrefix: string := "Could not load qr from file: "

  /** The Display impl of QrDecodeError: fixed texts, and the cause after IOError's prefix. */
  function Display(e: QrDecodeError): (s: string)
    ensures e.IOError? <==> |IOErrorPrefix| <= |s| && s[..|IOErrorPrefix|] == IOErrorPrefix
    ensures e.IOError? ==> s[|IOErrorPrefix|..] == e.cause
    ensures e.NotFound? ==> s == "Could not detect qr on image"
    ensures e.DecodeFailed? ==> s == "Faild to decode any qr"
  {
    match e
    case IOError(err) => IOErrorPrefix + err
    case NotFound => "Could not detect qr on image"
    case DecodeFailed => "Faild to decode any qr"
  }

  /** Distinct errors are displayed differently. */
  lemma DisplayInjective(a: QrDecodeError, b: QrDecodeError)
    requires Display(a) == Display(b)
    ensures a == b
  {
  }

  /** From<ImageError>: a load error becomes IOError with its text. */
  function FromImageError(cause: string): (e: QrDecodeError)
    ensures e.IOError? && Display(e) == IOErrorPrefix + cause
  {
    IOError(cause)
  }

  /** What `grid.decode()` gave for one grid (the metadata is not used). */
  datatype GridDecode = Decoded(content: string) | Undecodable

  /** What `image::open` and `detect_grids` gave. */
  datatype Image = LoadFailed(cause: string) | Loaded(grids: seq<GridDecode>)

  /** The content of the last grid that decoded, if any. This is the reference for the loop. */
  function LastDecoded(grids: seq<GridDecode>): (r: Option<string>)
    ensures r.Some? ==> Decoded(r.value) in grids
  {
    if grids == [] then None
    else match grids[|grids| - 1]
      case Decoded(c) => Some(c)
      case Undecodable => LastDecoded(grids[..|grids| - 1])
  }

  /** The outcome decode_qr promises for an image. */
  function Decode(image: Image): (r: Result<string, QrDecodeError>)
    ensures image.LoadFailed? ==> r == Err(IOError(image.cause))
    ensures r == Err(NotFound) <==> image.Loaded? && image.grids == []
    ensures r.Ok? ==> image.Loaded? && Decoded(r.value) in image.grids
  {
    match image
    case LoadFailed(cause) => Err(FromImageError(cause))
    case Loaded(grids) =>
      if |grids| == 0 then Err(NotFound)
      else match LastDecoded(grids)
        case None => Err(DecodeFailed)
        case Some(c) => Ok(c)
  }

  /**
   * decode_qr: an early NotFound for no grids, then a loop over all grids that
   * keeps overwriting `content` with each successful decode.
   */
  method DecodeQr(image: Image) returns (r: Result<string, QrDecodeError>)
    ensures r == Decode(image)
    ensures image.LoadFailed? ==> r == Err(IOError(image.cause))
    ensures image.Loaded? && image.grids == [] ==> r == Err(NotFound)
  {
    if image.LoadFailed? {
      return Err(FromImageError(image.cause));
    }
    var grids := image.grids;
    if |grids| == 0 {
      return Err(NotFound);
    }
    var content: Option<string> := None;
    for i := 0 to |grids|
      invariant content == LastDecoded(grids[..i])
    {
      assert grids[..i + 1][..i] == grids[..i];
      match grids[i]
      case Decoded(c) =>
        content := Some(c);
      case Undecodable =>
    }
    assert grids[..|grids|] == grids;
    match content
    case None =>
      r := Err(DecodeFailed);
    case Some(c) =>
      r := Ok(c);
  }

  /** Grid i decoded and no later grid did. */
  predicate IsLastSuccess(grids: seq<GridDecode>, i: int)
  {
    0 <= i < |grids| && grids[i].Decoded? && forall j :: i < j < |grids| ==> grids[j].Undecodable?
  }

  /** No grid decoded exactly when every grid failed. */
  lemma {:induction false} LastDecodedNone(grids: seq<GridDecode>)
    ensures LastDecoded(grids).None? <==> forall i :: 0 <= i < |grids| ==> grids[i].Undecodable?
  {
    if grids != [] {
      var init := grids[..|grids| - 1];
      LastDecodedNone(init);
      assert forall i :: 0 <= i < |init| ==> init[i] == grids[i];
    }
  }

  /** A grid that decoded and is followed only by failures is the one chosen. */
  lemma {:induction false} LastSuccessChosen(grids: seq<GridDecode>, i: nat)
    requires IsLastSuccess(grids, i)
    ensures LastDecoded(grids) == Some(grids[i].content)
  {
    if i < |grids| - 1 {
      var init := grids[..|grids| - 1];
      LastSuccessChosen(init, i);
    }
  }

  /** Whatever is chosen is the content of a grid after which nothing decoded. */
  lemma {:induction false} ChosenIsLastSuccess(grids: seq<GridDecode>)
    requires LastDecoded(grids).Some?
    ensures exists i :: IsLastSuccess(grids, i) && grids[i].content == LastDecoded(grids).value
  {
    var n := |grids| - 1;
    if grids[n].Undecodable? {
      var init := grids[..n];
      ChosenIsLastSuccess(init);
      var i :| IsLastSuccess(init, i) && init[i].content == LastDecoded(init).value;
      assert grids[i] == init[i];
      assert forall j :: i < j < |grids| ==> grids[j].Undecodable? by {
        forall j | i < j < |grids| ensures grids[j].Undecodable? {
          if j < n { assert grids[j] == init[j]; }
        }
      }
    } else {
      assert IsLastSuccess(grids, n);
    }
  }

  /** Removing a grid that failed to decode does not change the chosen content. */
  lemma {:induction false} UndecodableIgnored(a: seq<GridDecode>, b: seq<GridDecode>)
    ensures LastDecoded(a + [Undecodable] + b) == LastDecoded(a + b)
  {
    if b == [] {
      assert (a + [Undecodable] + b)[..|a|] == a;
      assert a + b == a;
    } else {
      var b' := b[..|b| - 1];
      assert (a + [Undecodable] + b)[..|a| + |b|] == a + [Undecodable] + b';
      assert (a + b)[..|a| + |b| - 1] == a + b';
      UndecodableIgnored(a, b');
    }
  }

  /**
   * Failed grids never change the outcome, as long as some grid is left:
   * with none left the answer would be NotFound instead of DecodeFailed.
   */
  lemma DecodeIgnoresUndecodable(a: seq<GridDecode>, b: seq<GridDecode>)
    requires a + b != []
    ensures Decode(Loaded(a + [Undecodable] + b)) == Decode(Loaded(a + b))
  {
    UndecodableIgnored(a, b);
  }

  /** The outcome in full: NotFound, DecodeFailed, or the last successful decode. */
  lemma DecodeCases(grids: seq<GridDecode>)
    ensures grids == [] ==> Decode(Loaded(grids)) == Err(NotFound)
    ensures grids != [] && (forall i :: 0 <= i < |grids| ==> grids[i].Undecodable?) ==>
      Decode(Loaded(grids)) == Err(DecodeFailed)
    ensures forall i :: IsLastSuccess(grids, i) ==> Decode(Loaded(grids)) == Ok(grids[i].content)
  {
    LastDecodedNone(grids);
    forall i | IsLastSuccess(grids, i)
      ensures Decode(Loaded(grids)) == Ok(grids[i].content)
    {
      LastSuccessChosen(grids, i);
    }
  }

  /** Grids [fails, "X", "Y"] give "Y": the last successful decode wins. */
  lemma LastWinsExample()
    ensures Decode(Loaded([Undecodable, Decoded("X"), Decoded("Y")])) == Ok("Y")
    ensures Decode(Loaded([Undecodable])) == Err(DecodeFailed)
  {
  }
}
