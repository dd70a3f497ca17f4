/**
 * The add-product form's list editing: the tag list with its text box, and
 * the list of uploaded images fed by the file picker and the image library.
 */
module AddProduct {
  import opened Replies
  import opened Lists

  /** The code points `String.prototype.trim` strips: the WhiteSpace and
    * LineTerminator productions of the ECMAScript language specification
    * (tab, vertical tab, form feed, space, no-break space, zero-width
    * no-break space, the other space separators, and the four line
    * terminators). */
  predicate IsSpace(c: char) {
    var n := c as int;
    n == 0x09 || n == 0x0B || n == 0x0C || n == 0x20 || n == 0xA0 || n == 0xFEFF
    || n == 0x1680 || (0x2000 <= n <= 0x200A) || n == 0x202F || n == 0x205F || n == 0x3000
    || n == 0x0A || n == 0x0D || n == 0x2028 || n == 0x2029
  }

  /** Everything up to the first non-space character removed. */
  function TrimStart(s: string): (r: string)
    ensures |r| <= |s| && r == s[|s| - |r|..]
    ensures forall k :: 0 <= k < |s| - |r| ==> IsSpace(s[k])
    ensures r != [] ==> !IsSpace(r[0])
    decreases |s|
  {
    if s != [] && IsSpace(s[0]) then TrimStart(s[1..]) else s
  }

  /** Everything after the last non-space character removed. */
  function TrimEnd(s: string): (r: string)
    ensures |r| <= |s| && r == s[..|r|]
    ensures forall k :: |r| <= k < |s| ==> IsSpace(s[k])
    ensures r != [] ==> !IsSpace(r[|r| - 1])
    decreases |s|
  {
    if s != [] && IsSpace(s[|s| - 1]) then TrimEnd(s[..|s| - 1]) else s
  }

  /** `String.prototype.trim`: a slice of the input with no space at either
    * end, everything outside it being space. */
  function Trim(s: string): (r: string)
    ensures exists i :: TrimmedAt(s, r, i)
    ensures r != [] ==> !IsSpace(r[0]) && !IsSpace(r[|r| - 1])
  {
    var t := TrimStart(s);
    var r := TrimEnd(t);
    var i := |s| - |t|;
    assert r == s[i..i + |r|];
    assert TrimmedAt(s, r, i);
    r
  }

  /** `r` is the part of `s` that starts at `i`, and everything of `s`
    * outside it is space. */
  predicate TrimmedAt(s: string, r: string, i: int) {
    && 0 <= i <= i + |r| <= |s| && r == s[i..i + |r|]
    && (forall k :: 0 <= k < i ==> IsSpace(s[k]))
    && (forall k :: i + |r| <= k < |s| ==> IsSpace(s[k]))
  }

  predicate AllSpace(s: string) {
    forall k :: 0 <= k < |s| ==> IsSpace(s[k])
  }

  /** `newTag.trim()` is falsy exactly when the text box holds only spaces. */
  lemma {:induction false} TrimEmptyIffAllSpace(s: string)
    ensures Trim(s) == "" <==> AllSpace(s)
  {
    var t := TrimStart(s);
    if !AllSpace(s) {
      var k :| 0 <= k < |s| && !IsSpace(s[k]);
      assert |TrimEnd(t)| > 0 by {
        assert k >= |s| - |t|;
        assert t[k - (|s| - |t|)] == s[k];
      }
    }
  }

  /** Trimming twice trims nothing more. */
  lemma TrimIdempotent(s: string)
    ensures Trim(Trim(s)) == Trim(s)
  {
    var r := Trim(s);
    if r != [] {
      assert TrimStart(r) == r;
      assert TrimEnd(r) == r;
    }
  }

  /** One entry of the image list. */
  datatype UploadedImage = UploadedImage(id: string, url: string, name: string, date: string, size: string)

  const InitialTags: seq<string> := ["Ceiling Light", "Statement Lighting", "Modern Lighting", "Luxury Lighting"]

  class AddProductForm {
    var tags: seq<string>
    var newTag: string
    var images: seq<UploadedImage>
    var showLibrary: bool

    constructor ()
      ensures tags == InitialTags && newTag == "" && images == [] && !showLibrary
    {
      tags := InitialTags;
      newTag := "";
      images := [];
      showLibrary := false;
    }

    /** `handleRemoveTag(t)`: every copy of `t` goes; every other tag keeps
      * its number of copies and its order. */
    method RemoveTag(t: string)
      modifies this
      ensures tags == Filter(old(tags), x => x != t)
      ensures t !in tags
      ensures forall x :: x != t ==> multiset(tags)[x] == multiset(old(tags))[x]
      ensures newTag == old(newTag) && images == old(images) && showLibrary == old(showLibrary)
    {
      tags := Filter(tags, x => x != t);
    }

    /** The text box's `onChange`. */
    method EditNewTag(text: string)
      modifies this
      ensures newTag == text
      ensures tags == old(tags) && images == old(images) && showLibrary == old(showLibrary)
    {
      newTag := text;
    }

    /** `handleAddTag`: Enter on a text box that holds more than spaces
      * appends the trimmed text, even when that tag is already listed, and
      * empties the box. Any other key, or a blank box, changes nothing. */
    method KeyDown(key: string)
      modifies this
      ensures key == "Enter" && !AllSpace(old(newTag)) ==>
        tags == old(tags) + [Trim(old(newTag))] && newTag == ""
      ensures key != "Enter" || AllSpace(old(newTag)) ==>
        tags == old(tags) && newTag == old(newTag)
      ensures images == old(images) && showLibrary == old(showLibrary)
    {
      TrimEmptyIffAllSpace(newTag);
      var trimmed := Trim(newTag);
      if key == "Enter" && trimmed != "" {
        tags := tags + [trimmed];
        newTag := "";
      }
    }

    /** The remove button of an image: exactly the images with that id go,
      * the others keep their order. */
    method RemoveImage(id: string)
      modifies this
      ensures images == Filter(old(images), (img: UploadedImage) => img.id != id)
      ensures forall i :: 0 <= i < |images| ==> images[i].id != id
      ensures forall img: UploadedImage :: img.id != id ==> multiset(images)[img] == multiset(old(images))[img]
      ensures tags == old(tags) && newTag == old(newTag) && showLibrary == old(showLibrary)
    {
      images := Filter(images, (img: UploadedImage) => img.id != id);
    }

    /** The file picker's `onChange`: the picked files, already turned into
      * image entries, are appended after the existing images; when the event
      * carries no file list nothing changes. */
    method AddFiles(picked: Option<seq<UploadedImage>>)
      modifies this
      ensures picked.Some? ==> images == old(images) + picked.value
      ensures picked.None? ==> images == old(images)
      ensures tags == old(tags) && newTag == old(newTag) && showLibrary == old(showLibrary)
    {
      if picked.Some? {
        images := images + picked.value;
      }
    }

    method OpenLibrary()
      modifies this
      ensures showLibrary
      ensures tags == old(tags) && newTag == old(newTag) && images == old(images)
    {
      showLibrary := true;
    }

    /** The library's `onSelect`: the chosen images are appended and the
      * library closes. */
    method LibrarySelect(selected: seq<UploadedImage>)
      modifies this
      ensures images == old(images) + selected && !showLibrary
      ensures tags == old(tags) && newTag == old(newTag)
    {
      images := images + selected;
      showLibrary := false;
    }

    method CloseLibrary()
      modifies this
      ensures !showLibrary
      ensures tags == old(tags) && newTag == old(newTag) && images == old(images)
    {
      showLibrary := false;
    }
  }

  /** A tag added by Enter is never blank and has no space at either end. */
  lemma AddedTagIsTrimmed(text: string)
    requires !AllSpace(text)
    ensures Trim(text) != ""
    ensures !IsSpace(Trim(text)[0]) && !IsSpace(Trim(text)[|Trim(text)| - 1])
    ensures Trim(Trim(text)) == Trim(text)
  {
    TrimEmptyIffAllSpace(text);
    TrimIdempotent(text);
  }

  /** Removing a tag right after adding it leaves the other tags as removing
    * it would have before the addition. */
  lemma RemoveUndoesAdd(tags: seq<string>, t: string)
    ensures Filter(tags + [t], x => x != t) == Filter(tags, x => x != t)
  {
    FilterAppend(tags, [t], x => x != t);
    assert Filter([t], x => x != t) == [];
  }

  /** Removing an image whose id no new upload uses keeps the new uploads,
    * in order, after what remains of the earlier images. */
  lemma RemoveImageKeepsNewUploads(images: seq<UploadedImage>, added: seq<UploadedImage>, id: string)
    requires forall i :: 0 <= i < |added| ==> added[i].id != id
    ensures Filter(images + added, (img: UploadedImage) => img.id != id) == Filter(images, (img: UploadedImage) => img.id != id) + added
  {
    FilterAppend(images, added, (img: UploadedImage) => img.id != id);
    FilterKeepsAll(added, (img: UploadedImage) => img.id != id);
  }
}
