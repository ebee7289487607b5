/**
 * The container-to-record stage of the download endpoint.  The markup parser
 * is not modelled: each element with class `download-items` arrives as a
 * `Container` recording what the endpoint's look-ups find inside it.
 */
module Media {
  import opened Wrappers

  /** The first `img` of a container; `src` is absent when the tag has no such attribute. */
  datatype ImgTag = ImgTag(src: Option<string>)
  /** An `a` element with class `abutton`; `href` may be missing. */
  datatype Anchor = Anchor(href: Option<string>)
  /** The first element with class `download-items__btn`, and the first `a.abutton` in it. */
  datatype ButtonDiv = ButtonDiv(abutton: Option<Anchor>)
  /** The first `i` element with class `icon`, with its whole class list. */
  datatype IconTag = IconTag(classes: seq<string>)

  datatype Container = Container(img: Option<ImgTag>, button: Option<ButtonDiv>, icon: Option<IconTag>)

  /** The `MediaItem` response record. */
  datatype MediaItem = MediaItem(
    caption: Option<string>,
    mediaUrl: string,
    sourceType: string,
    thumbnailUrl: Option<string>,
    timestamp: Option<string>,
    mediaType: string)

  /** The exceptions the loop can raise, with the position of the offending container:
    * indexing an `img` that has no `src` (a `KeyError`), and building a record whose
    * `media_url` is `None` (a validation error of the record model). */
  datatype ParseError = SrcKeyError(index: nat) | HrefValidationError(index: nat)

  /** What one loop iteration does with a container. */
  datatype Step = Skip | Emit(item: MediaItem) | Raise(error: ParseError)

  /** The download link: the `a.abutton` inside the button element, if both exist. */
  function LinkTag(c: Container): Option<Anchor> {
    if c.button.Some? then c.button.value.abutton else None
  }

  /** The icon's class list, empty when there is no icon tag. */
  function IconClasses(c: Container): seq<string> {
    if c.icon.Some? then c.icon.value.classes else []
  }

  /** The thumbnail: the first image's `src`, absent when there is no image. */
  function ThumbUrl(c: Container): Option<string> {
    if c.img.Some? then c.img.value.src else None
  }

  /** The type classification: video markers win over image markers. */
  function ClassifyType(classes: seq<string>): (t: string)
    ensures t == "video" <==> "icon-video" in classes
    ensures t == "image" <==> "icon-video" !in classes && "icon-dlimage" in classes
    ensures t == "unknown" <==> "icon-video" !in classes && "icon-dlimage" !in classes
  {
    if "icon-video" in classes then "video"
    else if "icon-dlimage" in classes then "image"
    else "unknown"
  }

  predicate MissingSrc(c: Container) {
    c.img.Some? && c.img.value.src.None?
  }

  predicate MissingHref(c: Container) {
    LinkTag(c).Some? && LinkTag(c).value.href.None?
  }

  /** Processing the container raises one of the two exceptions. */
  predicate Raises(c: Container) {
    MissingSrc(c) || MissingHref(c)
  }

  /** The exception raised at position `index`: the thumbnail look-up comes first. */
  function ErrorOf(c: Container, index: nat): ParseError {
    if MissingSrc(c) then SrcKeyError(index) else HrefValidationError(index)
  }

  /** The record built for a linked container that raises nothing. */
  function RecordOf(c: Container): MediaItem
    requires LinkTag(c).Some? && !Raises(c)
  {
    MediaItem(None, LinkTag(c).value.href.value, "post", ThumbUrl(c), None, ClassifyType(IconClasses(c)))
  }

  /** One loop iteration on the container at position `index`. */
  function StepOf(c: Container, index: nat): Step {
    if MissingSrc(c) then Raise(SrcKeyError(index))
    else if LinkTag(c).None? then Skip
    else if MissingHref(c) then Raise(HrefValidationError(index))
    else Emit(RecordOf(c))
  }

  /** The records (or the exception) after the loop has seen all of `cs`,
    * defined the way the loop runs: by the last container of a prefix. */
  function ParseItems(cs: seq<Container>): (r: Result<seq<MediaItem>, ParseError>)
    ensures r.Ok? ==> |r.value| <= |cs|
    ensures r.Err? ==> r.error.index < |cs|
  {
    if cs == [] then Ok([])
    else
      var n := |cs| - 1;
      match ParseItems(cs[..n])
      case Err(e) => Err(e)
      case Ok(ms) =>
        match StepOf(cs[n], n)
        case Skip => Ok(ms)
        case Emit(m) => Ok(ms + [m])
        case Raise(e) => Err(e)
  }

  /** The containers that carry a download link, in document order. */
  function Linked(cs: seq<Container>): (ls: seq<Container>)
    ensures |ls| <= |cs|
    ensures forall c :: c in ls <==> c in cs && LinkTag(c).Some?
  {
    if cs == [] then []
    else (if LinkTag(cs[0]).Some? then [cs[0]] else []) + Linked(cs[1..])
  }

  lemma {:induction false} LinkedAppend(cs: seq<Container>, c: Container)
    ensures Linked(cs + [c]) == Linked(cs) + (if LinkTag(c).Some? then [c] else [])
  {
    if cs == [] {
      assert [c][1..] == [];
    } else {
      assert (cs + [c])[1..] == cs[1..] + [c];
      LinkedAppend(cs[1..], c);
    }
  }

  /** An exception, once raised, ends the loop: later containers change nothing. */
  lemma {:induction false} ErrorIsFinal(cs: seq<Container>, n: nat)
    requires n <= |cs| && ParseItems(cs[..n]).Err?
    ensures ParseItems(cs) == ParseItems(cs[..n])
    decreases |cs|
  {
    if n < |cs| {
      var p := cs[..|cs| - 1];
      assert p[..n] == cs[..n];
      ErrorIsFinal(p, n);
    } else {
      assert cs[..n] == cs;
    }
  }

  /** When no container raises, the loop is a filter-map: one record per linked
    * container, built by `RecordOf`, in container order; unlinked ones are dropped. */
  lemma {:induction false} ParseItemsIsFilterMap(cs: seq<Container>)
    requires forall i :: 0 <= i < |cs| ==> !Raises(cs[i])
    ensures ParseItems(cs).Ok?
    ensures |ParseItems(cs).value| == |Linked(cs)|
    ensures forall k :: 0 <= k < |Linked(cs)| ==> ParseItems(cs).value[k] == RecordOf(Linked(cs)[k])
  {
    if cs != [] {
      var n := |cs| - 1;
      var p := cs[..n];
      assert cs == p + [cs[n]];
      ParseItemsIsFilterMap(p);
      LinkedAppend(p, cs[n]);
    }
  }

  /** The loop raises exactly when some container raises, and the exception is
    * the one of the first such container. */
  lemma {:induction false} ParseItemsError(cs: seq<Container>)
    ensures ParseItems(cs).Err? <==> exists i :: 0 <= i < |cs| && Raises(cs[i])
    ensures ParseItems(cs).Err? ==>
              var i := ParseItems(cs).error.index;
              && i < |cs| && Raises(cs[i])
              && ParseItems(cs).error == ErrorOf(cs[i], i)
              && forall j :: 0 <= j < i ==> !Raises(cs[j])
  {
    if cs != [] {
      var n := |cs| - 1;
      var p := cs[..n];
      ParseItemsError(p);
      if ParseItems(p).Err? {
        var i := ParseItems(p).error.index;
        assert cs[i] == p[i];
        forall j | 0 <= j < i ensures !Raises(cs[j]) { assert cs[j] == p[j]; }
      } else {
        forall j | 0 <= j < n ensures !Raises(cs[j]) { assert cs[j] == p[j]; }
      }
    }
  }

  /** Every record carries the fixed fields and comes from a linked container of
    * the input: its link's `href`, that container's thumbnail and classification. */
  lemma {:induction false} RecordFields(cs: seq<Container>)
    requires ParseItems(cs).Ok?
    ensures forall m :: m in ParseItems(cs).value ==>
              && m.sourceType == "post" && m.caption.None? && m.timestamp.None?
              && m.mediaType in {"video", "image", "unknown"}
    ensures forall m :: m in ParseItems(cs).value ==>
              exists i :: 0 <= i < |cs| && LinkTag(cs[i]).Some?
                && LinkTag(cs[i]).value.href == Some(m.mediaUrl)
                && m.thumbnailUrl == ThumbUrl(cs[i])
                && m.mediaType == ClassifyType(IconClasses(cs[i]))
  {
    ParseItemsError(cs);
    ParseItemsIsFilterMap(cs);
    var ms := ParseItems(cs).value;
    var ls := Linked(cs);
    forall m | m in ms
      ensures exists i :: 0 <= i < |cs| && LinkTag(cs[i]).Some?
                && LinkTag(cs[i]).value.href == Some(m.mediaUrl)
                && m.thumbnailUrl == ThumbUrl(cs[i])
                && m.mediaType == ClassifyType(IconClasses(cs[i]))
    {
      var k :| 0 <= k < |ms| && ms[k] == m;
      assert ls[k] in ls;
      var i :| 0 <= i < |cs| && cs[i] == ls[k];
    }
  }

  /** A container with a video icon and a download link, and one without a link,
    * give a single video record. */
  lemma ExampleVideoThenUnlinked()
    ensures ParseItems([
              Container(None, Some(ButtonDiv(Some(Anchor(Some("https://cdn.x/video.mp4"))))),
                        Some(IconTag(["icon", "icon-dlimage", "icon-video"]))),
              Container(Some(ImgTag(Some("thumb.jpg"))), Some(ButtonDiv(None)), None)])
         == Ok([MediaItem(None, "https://cdn.x/video.mp4", "post", None, None, "video")])
  {
    var c0 := Container(None, Some(ButtonDiv(Some(Anchor(Some("https://cdn.x/video.mp4"))))),
                        Some(IconTag(["icon", "icon-dlimage", "icon-video"])));
    var c1 := Container(Some(ImgTag(Some("thumb.jpg"))), Some(ButtonDiv(None)), None);
    assert [c0, c1][..1] == [c0];
    assert [c0][..0] == [];
    assert IconClasses(c0)[2] == "icon-video";
    assert ParseItems([c0][..0]) == Ok([]);
    assert StepOf(c0, 0) == Emit(RecordOf(c0));
    assert [] + [RecordOf(c0)] == [RecordOf(c0)];
    assert ParseItems([c0]) == Ok([RecordOf(c0)]);
    assert StepOf(c1, 1) == Skip;
  }

  /** The loop of the endpoint: scan the containers in order, skip those without
    * a download link, classify the icon and append one record per remaining one. */
  method CollectMediaItems(items: seq<Container>) returns (r: Result<seq<MediaItem>, ParseError>)
    ensures r == ParseItems(items)
  {
    var mediaItems: seq<MediaItem> := [];
    var i := 0;
    while i < |items|
      invariant 0 <= i <= |items|
      invariant ParseItems(items[..i]) == Ok(mediaItems)
    {
      var item := items[i];
      assert items[..i + 1][..i] == items[..i];

      var thumbUrl: Option<string> := None;
      if item.img.Some? {
        if item.img.value.src.None? {
          ErrorIsFinal(items, i + 1);
          return Err(SrcKeyError(i));
        }
        thumbUrl := item.img.value.src;
      }

      var linkTag: Option<Anchor> := None;
      if item.button.Some? {
        linkTag := item.button.value.abutton;
      }
      if linkTag.None? {
        i := i + 1;
        continue;
      }
      var finalUrl := linkTag.value.href;

      var iconClass: seq<string> := [];
      if item.icon.Some? {
        iconClass := item.icon.value.classes;
      }
      var mediaType := "unknown";
      if "icon-video" in iconClass {
        mediaType := "video";
      } else if "icon-dlimage" in iconClass {
        mediaType := "image";
      }

      if finalUrl.None? {
        ErrorIsFinal(items, i + 1);
        return Err(HrefValidationError(i));
      }
      mediaItems := mediaItems + [MediaItem(None, finalUrl.value, "post", thumbUrl, None, mediaType)];
      i := i + 1;
    }
    assert items[..i] == items;
    return Ok(mediaItems);
  }
}
