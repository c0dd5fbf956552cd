/** The image gallery's selection: picking an image selects it together with
    its neighbours in the gallery, the viewer dialog is open while a
    selection exists, and closing the dialog clears it. The gallery finds the
    picked image by object identity; here images are values, and the
    properties that depend on finding the right position ask for a gallery
    without repeated images. */
module ImageGallery {
  import opened Wrappers

  datatype Image = Image(src: string, name: string)

  /** The selected image with the images on its right and left, if any. */
  datatype Selection = Selection(image: Image, rightNeighbour: Option<Image>, leftNeighbour: Option<Image>)

  /** `findIndex`: the position of the first equal image, or -1. */
  function FindIndex(images: seq<Image>, x: Image): (i: int)
    ensures -1 <= i < |images|
    ensures i == -1 <==> x !in images
    ensures 0 <= i ==> images[i] == x && x !in images[..i]
  {
    if images == [] then -1
    else if images[0] == x then 0
    else
      var i := FindIndex(images[1..], x);
      assert 0 <= i ==> images[1..][..i] == images[1..i + 1];
      if i == -1 then -1 else i + 1
  }

  /** `onSelectionChange`: no image clears the selection; otherwise the
      neighbours are read at the found position plus and minus one. A
      position of -1 (an image no longer in the gallery) makes the first image
      its right neighbour. */
  function OnSelectionChange(images: seq<Image>, picked: Option<Image>): (sel: Option<Selection>)
    ensures picked.None? <==> sel.None?
    ensures sel.Some? ==> sel.value.image == picked.value
  {
    match picked
    case None => None
    case Some(x) =>
      var i := FindIndex(images, x);
      var right := if i < |images| - 1 then Some(images[i + 1]) else None;
      var left := if i > 0 then Some(images[i - 1]) else None;
      Some(Selection(x, right, left))
  }

  /** The dialog's `open` flag. */
  predicate IsOpen(sel: Option<Selection>)
  {
    sel.Some?
  }

  /** `onOpenChange`: closing clears the selection; opening leaves it to the
      click that picked the image. */
  function OnOpenChange(images: seq<Image>, sel: Option<Selection>, open: bool): (r: Option<Selection>)
    ensures !open ==> r.None? && !IsOpen(r)
    ensures open ==> r == sel
  {
    if !open then OnSelectionChange(images, None) else sel
  }

  /** No image appears twice. */
  predicate Distinct(images: seq<Image>)
  {
    forall i, j :: 0 <= i < j < |images| ==> images[i] != images[j]
  }

  /** In a gallery without repeats, the image at position k is found at k. */
  lemma FindIndexOfDistinct(images: seq<Image>, k: int)
    requires Distinct(images) && 0 <= k < |images|
    ensures FindIndex(images, images[k]) == k
  {
    var i := FindIndex(images, images[k]);
    assert images[k] !in images[..i];
  }

  /** Picking the image at position k selects it with the image after it
      (none for the last) and the image before it (none for the first). */
  lemma NeighboursOfPick(images: seq<Image>, k: int)
    requires Distinct(images) && 0 <= k < |images|
    ensures var sel := OnSelectionChange(images, Some(images[k])).value;
            && sel.image == images[k]
            && (k < |images| - 1 ==> sel.rightNeighbour == Some(images[k + 1]))
            && (k == |images| - 1 ==> sel.rightNeighbour.None?)
            && (k > 0 ==> sel.leftNeighbour == Some(images[k - 1]))
            && (k == 0 ==> sel.leftNeighbour.None?)
  {
    FindIndexOfDistinct(images, k);
  }

  /** Stepping right and then left comes back to the picked image. */
  lemma RightThenLeft(images: seq<Image>, x: Image)
    requires Distinct(images) && x in images
    requires OnSelectionChange(images, Some(x)).value.rightNeighbour.Some?
    ensures var y := OnSelectionChange(images, Some(x)).value.rightNeighbour.value;
            OnSelectionChange(images, Some(y)).value.leftNeighbour == Some(x)
  {
    var k := FindIndex(images, x);
    NeighboursOfPick(images, k);
    NeighboursOfPick(images, k + 1);
  }

  /** An image no longer in a non-empty gallery is shown with the gallery's
      first image on its right and nothing on its left. */
  lemma PickOfMissingImage(images: seq<Image>, x: Image)
    requires x !in images && |images| >= 1
    ensures OnSelectionChange(images, Some(x)) == Some(Selection(x, Some(images[0]), None))
  {
  }

  /** The dialog is open exactly after a pick, and closing it clears the
      selection for good. */
  lemma OpenIffPicked(images: seq<Image>, picked: Option<Image>)
    ensures IsOpen(OnSelectionChange(images, picked)) <==> picked.Some?
    ensures !IsOpen(OnOpenChange(images, OnSelectionChange(images, picked), false))
  {
  }
}
