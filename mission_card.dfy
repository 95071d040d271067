/** The mission card's image path: the mission name lower-cased with every
    space turned into a hyphen, under `/images/`, as a `.png`. */
module MissionCard {
  import opened Text

  const ImageDir := "/images/"
  const ImageExt := ".png"

  /** `replace(/ /g, '-')`. */
  function Hyphenate(s: string): (r: string)
    ensures |r| == |s|
    ensures forall i :: 0 <= i < |s| ==> r[i] == (if s[i] == ' ' then '-' else s[i])
  {
    seq(|s|, i requires 0 <= i < |s| => if s[i] == ' ' then '-' else s[i])
  }

  /** `getImageSrc(missionName)`: 12 characters longer than the name, and
      never holding a space. */
  function ImageSrc(name: string): (src: string)
    ensures |src| == |name| + 12
    ensures ' ' !in src
  {
    PathHasNoSpace(Lower(name));
    ImageDir + Hyphenate(Lower(name)) + ImageExt
  }

  lemma PathHasNoSpace(s: string)
    ensures ' ' !in ImageDir + Hyphenate(s) + ImageExt
  {
    var slug := Hyphenate(s);
    assert ' ' !in ImageDir && ' ' !in ImageExt;
    assert forall i :: 0 <= i < |slug| ==> slug[i] != ' ';
    assert ' ' !in slug;
  }

  /** The path is the directory, one character per character of the name
      (lower-cased, a space turned into a hyphen), and the extension. */
  lemma ImageSrcShape(name: string)
    ensures ImageSrc(name)[..8] == ImageDir && ImageSrc(name)[|name| + 8..] == ImageExt
    ensures forall i :: 0 <= i < |name| ==>
              ImageSrc(name)[8 + i] == (if LowerChar(name[i]) == ' ' then '-' else LowerChar(name[i]))
  {
    var slug := Hyphenate(Lower(name));
    assert ImageSrc(name) == ImageDir + slug + ImageExt;
  }

  /** Names that agree up to the case of their letters give the same path. */
  lemma CaseInsensitive(a: string, b: string)
    requires |a| == |b| && forall i :: 0 <= i < |a| ==> LowerChar(a[i]) == LowerChar(b[i])
    ensures ImageSrc(a) == ImageSrc(b)
  {
    assert Lower(a) == Lower(b);
  }

  /** Lower-casing the name first changes nothing. */
  lemma LowerFirstChangesNothing(name: string)
    ensures ImageSrc(Lower(name)) == ImageSrc(name)
  {
    CaseInsensitive(Lower(name), name);
  }
}
