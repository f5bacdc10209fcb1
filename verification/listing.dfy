/**
  A directory listing page: a sequence of `div.catbox` blocks, each with an
  `h2` title anchor and a `p` description, and a pagination anchor
  `a.nextpostslink`. `extract_schools_from_html` and `get_next_page_url` are
  the same code in the bulk extractor and in `schools.py`; they differ only in
  the three key names, given here as a `Layout`.
 */
module Listing {
  import opened Wrappers

  /** A JSON object of the output, with string values. */
  type Record = map<string, string>

  /** The text and `href` of a title anchor; a missing `href` is the empty string. */
  datatype Anchor = Anchor(text: string, href: string)

  /** One catbox: the anchor inside its `h2` (None when there is no `h2` or it holds no anchor) and its `p` text. */
  datatype Catbox = Catbox(title: Option<Anchor>, description: Option<string>)

  /** One listing page: its catboxes in document order and the `href` of its next-page anchor, if it has one. */
  datatype ListingPage = ListingPage(boxes: seq<Catbox>, next: Option<string>)

  /** The key names a record is built with. */
  datatype Layout = Layout(nameKey: string, linkKey: string, descriptionKey: string)

  /** Keys used by the bulk extractor. */
  const BulkLayout := Layout("school_name", "school_link", "school_description")

  /** Keys used by `schools.py`. */
  const PlainLayout := Layout("name", "link", "description")

  /** The key the bulk extractor stamps with the district's name. */
  const DistrictKey := "school_district"

  predicate DistinctKeys(layout: Layout)
  {
    && layout.nameKey != layout.linkKey
    && layout.nameKey != layout.descriptionKey
    && layout.linkKey != layout.descriptionKey
  }

  /** Does this catbox yield a record? */
  predicate HasTitle(box: Catbox)
  {
    box.title.Some?
  }

  /** The record built from a catbox that has a title anchor; the description defaults to "". */
  function RecordOf(layout: Layout, box: Catbox): (r: Record)
    requires HasTitle(box)
    ensures r.Keys == {layout.nameKey, layout.linkKey, layout.descriptionKey}
    ensures DistinctKeys(layout) ==> r[layout.nameKey] == box.title.value.text
    ensures DistinctKeys(layout) ==> r[layout.linkKey] == box.title.value.href
    ensures r[layout.descriptionKey] == box.description.GetOr("")
  {
    map[layout.nameKey := box.title.value.text,
        layout.linkKey := box.title.value.href,
        layout.descriptionKey := box.description.GetOr("")]
  }

  function TitledCount(boxes: seq<Catbox>): nat
  {
    if boxes == [] then 0
    else TitledCount(boxes[..|boxes| - 1]) + (if HasTitle(boxes[|boxes| - 1]) then 1 else 0)
  }

  /** `extract_schools_from_html`: one record per titled catbox, in page order. */
  function ExtractRecords(layout: Layout, boxes: seq<Catbox>): (r: seq<Record>)
    ensures |r| == TitledCount(boxes) <= |boxes|
    ensures forall i :: 0 <= i < |r| ==> r[i].Keys == {layout.nameKey, layout.linkKey, layout.descriptionKey}
  {
    if boxes == [] then []
    else
      var box := boxes[|boxes| - 1];
      ExtractRecords(layout, boxes[..|boxes| - 1]) + (if HasTitle(box) then [RecordOf(layout, box)] else [])
  }

  /** Extraction works box by box: the records of a concatenation are the concatenated records. */
  lemma {:induction false} ExtractRecordsAppend(layout: Layout, a: seq<Catbox>, b: seq<Catbox>)
    ensures ExtractRecords(layout, a + b) == ExtractRecords(layout, a) + ExtractRecords(layout, b)
    decreases |b|
  {
    if b == [] {
      assert a + b == a;
    } else {
      var b' := b[..|b| - 1];
      assert (a + b)[..|a + b| - 1] == a + b';
      ExtractRecordsAppend(layout, a, b');
    }
  }

  /** A single catbox yields its record exactly when it has a title anchor. */
  lemma ExtractRecordsSingle(layout: Layout, box: Catbox)
    ensures HasTitle(box) ==> ExtractRecords(layout, [box]) == [RecordOf(layout, box)]
    ensures !HasTitle(box) ==> ExtractRecords(layout, [box]) == []
  {
    assert [box][..0] == [];
  }

  /** `get_next_page_url`: the next-page `href`, only when the anchor exists and its `href` is not empty. */
  function NextPageUrl(next: Option<string>): (r: Option<string>)
    ensures r.Some? <==> next.Some? && next.value != ""
    ensures r.Some? ==> r.value == next.value
  {
    if next.Some? && next.value != "" then next else None
  }

  /**
    `scrape_all_schools_from_file` of `schools.py`: the records of the one
    local page and its next-page URL; no request is made.
   */
  function ScrapeFile(page: ListingPage): (r: (seq<Record>, Option<string>))
    ensures |r.0| == TitledCount(page.boxes) <= |page.boxes|
    ensures forall i :: 0 <= i < |r.0| ==> r.0[i].Keys == {"name", "link", "description"}
    ensures r.1.Some? <==> page.next.Some? && page.next.value != ""
    ensures r.1.Some? ==> r.1 == page.next
  {
    (ExtractRecords(PlainLayout, page.boxes), NextPageUrl(page.next))
  }
}
