/**
 * The badge list as CSV records: `saveCSV` turns each badge into a list of fields and
 * `parseCSV` turns records back into badges. The CSV text itself (quoting, separators) is
 * not modelled: a file is the sequence of its records, each the sequence of its fields.
 */
module Csv {
  import opened Wrappers
  import opened Numbers
  import opened Strings
  import opened Graphics
  import opened ImageTools
  import opened Badges

  // ---------------------------------------------------------------------------
  // saveCSV

  /** The token written for a background fit: none for `BACKGROUND_FILL` or any other value. */
  function FitToken(scaling: Int32): (r: seq<string>)
    ensures scaling == BACKGROUND_FIT_WIDTH ==> r == ["fit_width"]
    ensures scaling == BACKGROUND_FIT_HEIGHT ==> r == ["fit_height"]
    ensures scaling != BACKGROUND_FIT_WIDTH && scaling != BACKGROUND_FIT_HEIGHT ==> r == []
  {
    if scaling == BACKGROUND_FIT_WIDTH then ["fit_width"]
    else if scaling == BACKGROUND_FIT_HEIGHT then ["fit_height"]
    else []
  }

  /** `badge.number + "-" + badge.primaryText`: the name the background image is saved under, without `.png`. */
  function ImageName(b: BadgeData): string {
    FormatInt(b.number) + "-" + b.primaryText
  }

  /**
   * The fields of one badge: number, the two texts, the background image file (empty when
   * there is none), the three colours as six hex digits of their RGB, the fit token, then
   * the extra data in order.
   */
  function Fields(b: BadgeData): (r: seq<string>)
    ensures |r| == 7 + |FitToken(b.backgroundScaling)| + |b.extraData|
  {
    FixedFields(b) + FitToken(b.backgroundScaling) + b.extraData
  }

  /** The seven columns every record has. */
  function FixedFields(b: BadgeData): (r: seq<string>)
    ensures |r| == 7
  {
    [FormatInt(b.number), b.primaryText, b.secondaryText,
     if b.background.Some? then ImageName(b) + ".png" else "",
     Hex6(b.backgroundColor.Rgb()), Hex6(b.textBackgroundColor.Rgb()), Hex6(b.textColor.Rgb())]
  }

  /** The `fields` list `saveCSV` builds for one badge, the extra data appended one by one. */
  method SaveFields(badge: Badge) returns (fields: seq<string>)
    ensures fields == Fields(badge.Data())
  {
    var name := FormatInt(badge.number) + "-" + badge.primaryText;
    var image := if badge.background.Some? then name + ".png" else "";
    fields := [FormatInt(badge.number), badge.primaryText, badge.secondaryText, image,
               Hex6(badge.backgroundColor.argb % 0x100_0000), Hex6(badge.textBackgroundColor.argb % 0x100_0000),
               Hex6(badge.textColor.argb % 0x100_0000)];
    if badge.backgroundScaling == 0 {
      fields := fields + ["fit_width"];
    } else if badge.backgroundScaling == 1 {
      fields := fields + ["fit_height"];
    }
    fields := AddAll(fields, badge.extraData);
  }

  /** `fields.add(d)` for every `d` of `items`, in order. */
  method AddAll(fields: seq<string>, items: seq<string>) returns (r: seq<string>)
    ensures r == fields + items
  {
    r := fields;
    var k := 0;
    while k < |items|
      invariant k <= |items|
      invariant r == fields + items[..k]
    {
      assert items[..k + 1] == items[..k] + [items[k]];
      r := r + [items[k]];
      k := k + 1;
    }
    assert items[..k] == items;
  }

  /** `f` applied to every element of `xs`, in order. */
  function Each<A, B>(f: A -> B, xs: seq<A>): (r: seq<B>)
    ensures |r| == |xs|
  {
    if xs == [] then [] else Each(f, xs[..|xs| - 1]) + [f(xs[|xs| - 1])]
  }

  lemma {:induction false} EachAt<A, B>(f: A -> B, xs: seq<A>)
    ensures forall k :: 0 <= k < |xs| ==> Each(f, xs)[k] == f(xs[k])
  {
    if xs != [] {
      EachAt(f, xs[..|xs| - 1]);
      assert forall k :: 0 <= k < |xs| - 1 ==> xs[..|xs| - 1][k] == xs[k];
    }
  }

  /** The records `saveCSV` writes for a list of badges: one per badge, in order. */
  function Saved(ds: seq<BadgeData>): (r: seq<seq<string>>)
    ensures |r| == |ds|
  {
    Each(Fields, ds)
  }

  /** Record `k` of the saved file holds the fields of badge `k`. */
  lemma SavedFields(ds: seq<BadgeData>)
    ensures forall k :: 0 <= k < |ds| ==> Saved(ds)[k] == Fields(ds[k])
  {
    EachAt(Fields, ds);
  }

  /**
   * Whether writing the background PNG of `d` fails, `written` being what `ImageIO.write`
   * does for it. A badge without a background writes no image and cannot fail.
   */
  predicate WriteFails(d: BadgeData, written: bool) {
    d.background.Some? && !written
  }

  /**
   * How many records `saveCSV` writes: the exception of a failed image write leaves the
   * loop, so the records stop after the first badge whose image fails, its own included.
   */
  function SavedCount(ds: seq<BadgeData>, written: seq<bool>): (n: nat)
    requires |written| == |ds|
    ensures n <= |ds|
    ensures forall k :: 0 <= k < n - 1 ==> !WriteFails(ds[k], written[k])
    ensures n < |ds| ==> 0 < n && WriteFails(ds[n - 1], written[n - 1])
  {
    if ds == [] then 0
    else if WriteFails(ds[0], written[0]) then 1
    else 1 + SavedCount(ds[1..], written[1..])
  }

  /** All records are written iff every image write before the last badge's succeeds. */
  lemma SavedCountAll(ds: seq<BadgeData>, written: seq<bool>)
    requires |written| == |ds|
    ensures SavedCount(ds, written) == |ds| <==>
            forall k :: 0 <= k < |ds| - 1 ==> !WriteFails(ds[k], written[k])
  {
  }

  /** The records written are the first records of the whole list. */
  lemma SavedPrefix(ds: seq<BadgeData>, n: nat)
    requires n <= |ds|
    ensures Saved(ds[..n]) == Saved(ds)[..n]
  {
    EachAt(Fields, ds);
    EachAt(Fields, ds[..n]);
  }

  /**
   * `saveCSV`: the records of the badges, up to and including the first badge whose
   * background PNG fails to be written; `written[k]` is the outcome of that write for badge
   * `k` (the images themselves are not modelled).
   */
  method SaveCsv(badges: seq<Badge>, written: seq<bool>) returns (records: seq<seq<string>>)
    requires |written| == |badges|
    ensures records == Saved(Datas(badges)[..SavedCount(Datas(badges), written)])
  {
    ghost var datas := Datas(badges);
    records := [];
    var k := 0;
    var failed := false;
    while k < |badges| && !failed
      invariant k <= |badges| && records == Saved(datas[..k])
      invariant failed ==> SavedCount(datas, written) == k
      invariant !failed ==> SavedCount(datas, written) == k + SavedCount(datas[k..], written[k..])
    {
      records := SaveNext(badges, k, records, datas);
      if badges[k].background.Some? && !written[k] {
        failed := true;
      }
      assert datas[k..][1..] == datas[k + 1..] && written[k..][1..] == written[k + 1..];
      k := k + 1;
    }
    if !failed {
      assert datas[k..] == [];
    }
  }

  /** One pass of `saveCSV`'s loop: the record of badge `k` written after those before it. */
  method SaveNext(badges: seq<Badge>, k: nat, records: seq<seq<string>>, ghost datas: seq<BadgeData>)
    returns (more: seq<seq<string>>)
    requires k < |badges| && datas == Datas(badges) && records == Saved(datas[..k])
    ensures more == Saved(datas[..k + 1])
  {
    var fields := SaveFields(badges[k]);
    assert datas[..k + 1] == datas[..k] + [datas[k]];
    SavedSnoc(datas[..k], datas[k]);
    more := records + [fields];
  }

  /** Saving one more badge appends its record. */
  lemma SavedSnoc(ds: seq<BadgeData>, d: BadgeData)
    ensures Saved(ds + [d]) == Saved(ds) + [Fields(d)]
  {
    assert (ds + [d])[..|ds|] == ds;
  }

  // ---------------------------------------------------------------------------
  // parseCSV

  /** Column 7: `fit_height` in any letter case gives `BACKGROUND_FIT_HEIGHT`, anything else `BACKGROUND_FIT_WIDTH`. */
  function FitOf(token: string): (r: Int32)
    ensures r == BACKGROUND_FIT_HEIGHT || r == BACKGROUND_FIT_WIDTH
  {
    if ToLower(token) == "fit_height" then BACKGROUND_FIT_HEIGHT else BACKGROUND_FIT_WIDTH
  }

  /** The size `parseCSV` is given: badge width and height in inches, and dots per inch. */
  datatype Size = Size(width: real, height: real, resolution: Int32)

  /** What every parsed badge is set to: its width, its proportion (height over width) and its resolution. */
  datatype Shape = Shape(width: real, proportion: real, resolution: Int32)

  function ShapeOf(size: Size): (s: Shape)
    requires size.width != 0.0
    ensures s.width * s.proportion == size.height
  {
    Shape(size.width, size.height / size.width, size.resolution)
  }

  /**
   * The badge a record with a valid number makes: the constructor's fields, then the fit
   * and the extra data when the record has more than seven fields, then the shape.
   */
  function BadgeOf(record: seq<string>, number: Int32, background: Option<Image>, shape: Shape): (b: BadgeData)
    requires |record| >= 7
    ensures b.number == number && b.primaryText == record[1] && b.secondaryText == record[2] && b.background == background
    ensures b.backgroundColor == ParseHexColor(record[4]) && b.textBackgroundColor == ParseHexColor(record[5]) &&
            b.textColor == ParseHexColor(record[6])
    ensures |record| == 7 ==> b.backgroundScaling == BACKGROUND_FIT_WIDTH && b.extraData == []
    ensures |record| > 7 ==> b.backgroundScaling == FitOf(record[7]) && b.extraData == record[8..]
    ensures b.backgroundVerticalPosition == BACKGROUND_MIDDLE
    ensures b.width == shape.width && b.proportion == shape.proportion && b.resolution == shape.resolution as real
  {
    BadgeData(number, record[1], record[2], background,
      ParseHexColor(record[4]), ParseHexColor(record[5]), ParseHexColor(record[6]),
      if |record| > 7 then FitOf(record[7]) else BACKGROUND_FIT_WIDTH,
      BACKGROUND_MIDDLE, record[if |record| > 7 then 8 else 7..],
      shape.width, shape.proportion, shape.resolution as real)
  }

  /** The background file a record names: column 3 trimmed, resolved against the CSV file's directory. */
  function BackgroundPath(parent: string, field: string): string {
    parent + "/" + Trim(field)
  }

  /** The background a record gets, and the cache after it: none for a blank column 3, and none when the read fails. */
  function BackgroundOf(table: map<string, Option<Image>>, parent: string, field: string,
                        files: string -> LoadOutcome): (r: (Option<Image>, map<string, Option<Image>>))
    ensures Trim(field) == [] ==> r == (None, table)
    ensures Trim(field) != [] ==> r.1 == Lookup(table, BackgroundPath(parent, field), files(BackgroundPath(parent, field))).table
  {
    if Trim(field) == [] then (None, table)
    else
      var path := BackgroundPath(parent, field);
      var f := Lookup(table, path, files(path));
      (if f.result.Ok? then f.result.value else None, f.table)
  }

  /** A record `parseCSV` accepts: at least seven fields and an `int` in column 0. */
  predicate Accepted(record: seq<string>) {
    |record| >= 7 && ParseInt(record[0]).Some?
  }

  /** Badge `b` was read from `record`: its number and two texts are the record's first three columns. */
  predicate ReadFrom(record: seq<string>, b: BadgeData) {
    |record| >= 3 && ParseInt(record[0]) == Some(b.number) &&
    b.primaryText == record[1] && b.secondaryText == record[2]
  }

  /** One record read: the badge it gives (`None` ends the parse) and the image cache after it. */
  datatype Read = Read(badge: Option<BadgeData>, table: map<string, Option<Image>>)

  /** The body of `parseCSV`'s loop, as a function of the record and the cache. */
  type Reader = (seq<string>, map<string, Option<Image>>) -> Read

  /**
   * One record: fewer than seven fields end the parse with the cache untouched; otherwise
   * the background is loaded first, and a number that is not an `int` then ends the parse
   * (the load has already happened).
   */
  function ReadRecord(record: seq<string>, table: map<string, Option<Image>>, parent: string,
                      files: string -> LoadOutcome, shape: Shape): (r: Read)
    ensures r.badge.Some? <==> Accepted(record)
    ensures r.badge.Some? ==> ReadFrom(record, r.badge.value)
    ensures |record| < 7 || Trim(record[3]) == [] ==> r.table == table
  {
    if |record| < 7 then Read(None, table)
    else
      var loaded := BackgroundOf(table, parent, record[3], files);
      match ParseInt(record[0])
      case None => Read(None, loaded.1)
      case Some(number) => Read(Some(BadgeOf(record, number, loaded.0, shape)), loaded.1)
  }

  function Reading(parent: string, files: string -> LoadOutcome, shape: Shape): Reader {
    (record, table) => ReadRecord(record, table, parent, files, shape)
  }

  /**
   * `read` reads records as `ReadRecord` does with these settings. The trigger keeps the
   * record's reading folded away until `ReadRecord` itself is named.
   */
  ghost predicate Reads(read: Reader, parent: string, files: string -> LoadOutcome, shape: Shape) {
    forall record, table {:trigger ReadRecord(record, table, parent, files, shape)} ::
      read(record, table) == ReadRecord(record, table, parent, files, shape)
  }

  /** The badges read and the image cache left behind. */
  datatype Parsed = Parsed(badges: seq<BadgeData>, table: map<string, Option<Image>>)

  /** Reading records from `i` on, threading the cache, until the end or the first record `read` refuses. */
  function ReadAll(read: Reader, records: seq<seq<string>>, i: nat, table: map<string, Option<Image>>): (r: Parsed)
    ensures i <= |records| ==> |r.badges| <= |records| - i
    ensures i >= |records| ==> r == Parsed([], table)
    ensures (forall record, t :: read(record, t).badge.Some? ==> ReadFrom(record, read(record, t).badge.value)) ==>
      forall k :: 0 <= k < |r.badges| ==> ReadFrom(records[i + k], r.badges[k])
    decreases |records| - i
  {
    if i >= |records| then Parsed([], table)
    else
      var step := read(records[i], table);
      if step.badge.None? then Parsed([], step.table)
      else
        var rest := ReadAll(read, records, i + 1, step.table);
        Parsed([step.badge.value] + rest.badges, rest.table)
  }

  /** `parseCSV`: the badges of `records` and the image cache after them. */
  function ParseFrom(records: seq<seq<string>>, table: map<string, Option<Image>>, parent: string,
                     files: string -> LoadOutcome, size: Size): (r: Parsed)
    requires size.width != 0.0
    ensures |r.badges| <= |records|
    ensures forall k :: 0 <= k < |r.badges| ==> ReadFrom(records[k], r.badges[k])
  {
    ReadAll(Reading(parent, files, ShapeOf(size)), records, 0, table)
  }

  /** The badges of a list of objects, as values. */
  function Datas(badges: seq<Badge>): (r: seq<BadgeData>)
    reads badges
    ensures |r| == |badges| && forall k :: 0 <= k < |badges| ==> r[k] == badges[k].Data()
  {
    if badges == [] then [] else Datas(badges[..|badges| - 1]) + [badges[|badges| - 1].Data()]
  }

  /**
   * One pass of `parseCSV`'s loop: a record that is refused gives no badge; otherwise a
   * new badge is made with the constructor and the setters.
   */
  method ReadNext(record: seq<string>, parent: string, size: Size, cache: ImageCache,
                  files: string -> LoadOutcome, ghost read: Reader) returns (img: Option<Badge>)
    requires cache.Valid() && size.width != 0.0 && Reads(read, parent, files, ShapeOf(size))
    modifies cache
    ensures cache.Valid() && (img.Some? ==> fresh(img.value))
    ensures Read(if img.Some? then Some(img.value.Data()) else None, cache.table) ==
      read(record, old(cache.table))
  {
    assert ReadRecord(record, cache.table, parent, files, ShapeOf(size)) == read(record, cache.table);
    if |record| < 7 {
      return None;
    }
    ghost var table := cache.table;
    var background: Option<Image> := None;
    if Trim(record[3]) != "" {
      var path := parent + "/" + Trim(record[3]);
      var loaded := cache.Get(path, files(path));
      if loaded.Ok? {
        background := loaded.value;
      }
    }
    assert (background, cache.table) == BackgroundOf(table, parent, record[3], files);
    var number := ParseInt(record[0]);
    if number.None? {
      return None;
    }
    var badge := MakeBadge(record, number.value, background, size);
    img := Some(badge);
  }

  /** The badge an accepted record makes: the constructor, the fit and extra data setters, then the size setters. */
  method MakeBadge(record: seq<string>, number: Int32, background: Option<Image>, size: Size) returns (badge: Badge)
    requires |record| >= 7 && size.width != 0.0
    ensures fresh(badge) && badge.Data() == BadgeOf(record, number, background, ShapeOf(size))
  {
    badge := new Badge(number, record[1], record[2], background, record[4], record[5], record[6]);
    if |record| > 7 {
      badge.SetBackgroundFit(if ToLower(record[7]) == "fit_height" then BACKGROUND_FIT_HEIGHT else BACKGROUND_FIT_WIDTH);
      AddAllExtraData(badge, record[8..]);
    }
    badge.SetWidth(size.width);
    badge.SetProportion(size.height / size.width);
    badge.SetResolution(size.resolution);
  }

  /** `badge.addExtraData(d)` for every `d` of `items`, in order; the rest of the badge is untouched. */
  method AddAllExtraData(badge: Badge, items: seq<string>)
    modifies badge
    ensures badge.extraData == old(badge.extraData) + items
    ensures badge.unscaledImage == old(badge.unscaledImage) && badge.backgroundScaling == old(badge.backgroundScaling)
    ensures badge.width == old(badge.width) && badge.proportion == old(badge.proportion)
    ensures badge.resolution == old(badge.resolution)
    ensures badge.backgroundVerticalPosition == old(badge.backgroundVerticalPosition)
  {
    var k := 0;
    while k < |items|
      invariant k <= |items| && badge.extraData == old(badge.extraData) + items[..k]
      invariant badge.unscaledImage == old(badge.unscaledImage) && badge.backgroundScaling == old(badge.backgroundScaling)
      invariant badge.width == old(badge.width) && badge.proportion == old(badge.proportion)
      invariant badge.resolution == old(badge.resolution)
      invariant badge.backgroundVerticalPosition == old(badge.backgroundVerticalPosition)
    {
      assert items[..k + 1] == items[..k] + [items[k]];
      badge.AddExtraData(items[k]);
      k := k + 1;
    }
    assert items[..k] == items;
  }

  /** `parseCSV` over the records: the badges made, in order, until the end or the first record refused. */
  method ParseCsv(records: seq<seq<string>>, parent: string, size: Size, cache: ImageCache,
                  files: string -> LoadOutcome) returns (badges: seq<Badge>)
    requires cache.Valid() && size.width != 0.0
    modifies cache
    ensures cache.Valid()
    ensures Parsed(Datas(badges), cache.table) == ParseFrom(records, old(cache.table), parent, files, size)
  {
    ghost var shape := ShapeOf(size);
    assert Reads(Reading(parent, files, shape), parent, files, shape);
    ghost var read: Reader :| Reads(read, parent, files, shape);
    ParseFromReads(read, records, cache.table, parent, files, size);
    badges := ReadRecords(records, parent, size, cache, files, read);
  }

  /** The loop of `parseCSV`, for any `read` that reads records as `ReadRecord` does. */
  method ReadRecords(records: seq<seq<string>>, parent: string, size: Size, cache: ImageCache,
                     files: string -> LoadOutcome, ghost read: Reader) returns (badges: seq<Badge>)
    requires cache.Valid() && size.width != 0.0 && Reads(read, parent, files, ShapeOf(size))
    modifies cache
    ensures cache.Valid()
    ensures Parsed(Datas(badges), cache.table) == ReadAll(read, records, 0, old(cache.table))
  {
    ghost var whole := ReadAll(read, records, 0, cache.table);
    badges := [];
    var i := 0;
    while i < |records|
      invariant i <= |records| && cache.Valid()
      invariant whole == Parsed(Datas(badges) + ReadAll(read, records, i, cache.table).badges,
                                ReadAll(read, records, i, cache.table).table)
    {
      var done;
      badges, done := ReadInto(records, i, parent, size, cache, files, read, badges, whole);
      if done {
        return;
      }
      i := i + 1;
    }
  }

  /**
   * One pass of `parseCSV`'s loop over the list built so far: the badge read from record `i`,
   * if any, appended; `done` when the record is refused.
   */
  method ReadInto(records: seq<seq<string>>, i: nat, parent: string, size: Size, cache: ImageCache,
                  files: string -> LoadOutcome, ghost read: Reader, badges: seq<Badge>, ghost whole: Parsed)
    returns (more: seq<Badge>, done: bool)
    requires i < |records| && cache.Valid() && size.width != 0.0 && Reads(read, parent, files, ShapeOf(size))
    requires whole == Parsed(Datas(badges) + ReadAll(read, records, i, cache.table).badges,
                             ReadAll(read, records, i, cache.table).table)
    modifies cache
    ensures cache.Valid()
    ensures done ==> whole == Parsed(Datas(more), cache.table)
    ensures !done ==> whole == Parsed(Datas(more) + ReadAll(read, records, i + 1, cache.table).badges,
                                      ReadAll(read, records, i + 1, cache.table).table)
  {
    ghost var table := cache.table;
    ghost var before := Datas(badges);
    var img := ReadNext(records[i], parent, size, cache, files, read);
    assert Datas(badges) == before;
    if img.None? {
      assert before + [] == before;
      return badges, true;
    }
    ghost var d := img.value.Data();
    ReadAllStep(read, records, i, table, d, cache.table);
    more := badges + [img.value];
    assert more[..|more| - 1] == badges;
    assert Datas(more) == before + [d];
    assert before + ([d] + ReadAll(read, records, i + 1, cache.table).badges) ==
      Datas(more) + ReadAll(read, records, i + 1, cache.table).badges;
    done := false;
  }

  /** Two readers that agree on every record and cache read the same records alike. */
  lemma {:induction false} ReadAllSame(one: Reader, other: Reader, records: seq<seq<string>>, i: nat,
                                       table: map<string, Option<Image>>)
    requires forall record, t :: one(record, t) == other(record, t)
    ensures ReadAll(one, records, i, table) == ReadAll(other, records, i, table)
    decreases |records| - i
  {
    if i < |records| {
      ReadAllSame(one, other, records, i + 1, one(records[i], table).table);
    }
  }

  /** Any reader that reads as `ReadRecord` does gives `parseCSV`'s result. */
  lemma ParseFromReads(read: Reader, records: seq<seq<string>>, table: map<string, Option<Image>>,
                       parent: string, files: string -> LoadOutcome, size: Size)
    requires size.width != 0.0 && Reads(read, parent, files, ShapeOf(size))
    ensures ParseFrom(records, table, parent, files, size) == ReadAll(read, records, 0, table)
  {
    var shape := ShapeOf(size);
    forall record, t
      ensures read(record, t) == Reading(parent, files, shape)(record, t)
    {
      assert read(record, t) == ReadRecord(record, t, parent, files, shape);
    }
    ReadAllSame(read, Reading(parent, files, shape), records, 0, table);
  }

  /** One accepted record puts its badge in front of what the rest of the records give. */
  lemma ReadAllStep(read: Reader, records: seq<seq<string>>, i: nat, table: map<string, Option<Image>>,
                    d: BadgeData, after: map<string, Option<Image>>)
    requires i < |records| && read(records[i], table) == Read(Some(d), after)
    ensures ReadAll(read, records, i, table).badges == [d] + ReadAll(read, records, i + 1, after).badges
    ensures ReadAll(read, records, i, table).table == ReadAll(read, records, i + 1, after).table
  {
  }

  // ---------------------------------------------------------------------------
  // What parsing and saving promise

  /**
   * Whatever a reader does in detail, `ReadAll` takes the longest run of records it accepts:
   * each badge comes from the record at its position, and the run stops at the end or at the
   * first record refused.
   */
  lemma {:induction false} ReadAllPrefix(read: Reader, accepts: seq<string> -> bool,
                                         gives: (seq<string>, BadgeData) -> bool,
                                         records: seq<seq<string>>, i: nat, table: map<string, Option<Image>>)
    requires i <= |records|
    requires forall record, t :: read(record, t).badge.Some? <==> accepts(record)
    requires forall record, t :: read(record, t).badge.Some? ==> gives(record, read(record, t).badge.value)
    ensures var r := ReadAll(read, records, i, table);
      i + |r.badges| <= |records| &&
      (forall k :: i <= k < i + |r.badges| ==> accepts(records[k]) && gives(records[k], r.badges[k - i])) &&
      (i + |r.badges| == |records| || !accepts(records[i + |r.badges|]))
    decreases |records| - i
  {
    if i < |records| {
      var step := read(records[i], table);
      if step.badge.Some? {
        ReadAllPrefix(read, accepts, gives, records, i + 1, step.table);
        var r := ReadAll(read, records, i, table);
        var rest := ReadAll(read, records, i + 1, step.table);
        forall j | 0 < j < |r.badges|
          ensures r.badges[j] == rest.badges[j - 1]
        {
        }
      }
    }
  }

  /**
   * `parseCSV` reads the longest run of accepted records: badge `k` has the number and the
   * texts of record `k`, and the parse stops at the end or at the first record that is not
   * accepted.
   */
  lemma ParseReadsPrefix(records: seq<seq<string>>, table: map<string, Option<Image>>, parent: string,
                         files: string -> LoadOutcome, size: Size)
    requires size.width != 0.0
    ensures var r := ParseFrom(records, table, parent, files, size);
      |r.badges| <= |records| &&
      (forall k :: 0 <= k < |r.badges| ==> Accepted(records[k]) && ReadFrom(records[k], r.badges[k])) &&
      (|r.badges| == |records| || !Accepted(records[|r.badges|]))
  {
    ReadAllPrefix(Reading(parent, files, ShapeOf(size)), Accepted, ReadFrom, records, 0, table);
    var r := ParseFrom(records, table, parent, files, size);
    forall k | 0 <= k < |r.badges|
      ensures Accepted(records[k]) && ReadFrom(records[k], r.badges[k])
    {
      assert r.badges[k - 0] == r.badges[k];
    }
  }

  /** A reader that leaves the cache alone on every record leaves it alone over the whole run. */
  lemma {:induction false} ReadAllKeepsCache(read: Reader, records: seq<seq<string>>, i: nat, table: map<string, Option<Image>>)
    requires forall k, t :: i <= k < |records| ==> read(records[k], t).table == t
    ensures ReadAll(read, records, i, table).table == table
    decreases |records| - i
  {
    if i < |records| {
      ReadAllKeepsCache(read, records, i + 1, table);
    }
  }

  /** When no record names a background image, parsing leaves the image cache as it was. */
  lemma NoBackgroundNoLoad(records: seq<seq<string>>, table: map<string, Option<Image>>, parent: string,
                           files: string -> LoadOutcome, size: Size)
    requires size.width != 0.0
    requires forall k :: 0 <= k < |records| ==> |records[k]| < 7 || Trim(records[k][3]) == []
    ensures ParseFrom(records, table, parent, files, size).table == table
  {
    ReadAllKeepsCache(Reading(parent, files, ShapeOf(size)), records, 0, table);
  }

  /** The fit token is read without regard to letter case: any spelling of `fit_height` fits to the height. */
  lemma FitIgnoresCase(token: string)
    requires |token| == |"fit_height"| && forall k :: 0 <= k < |token| ==> LowerChar(token[k]) == "fit_height"[k]
    ensures FitOf(token) == BACKGROUND_FIT_HEIGHT
  {
    LowerBy(token, "fit_height");
  }

  /** `FIT_HEIGHT` in capitals is such a spelling. */
  lemma FitCapitals()
    ensures FitOf("FIT_HEIGHT") == BACKGROUND_FIT_HEIGHT
  {
    FitIgnoresCase("FIT_HEIGHT");
  }

  /** Any token of another length (`fit_width`, `fill`, an empty column) reads as fit to the width. */
  lemma FitOtherwiseWidth(token: string)
    requires |token| != |"fit_height"|
    ensures FitOf(token) == BACKGROUND_FIT_WIDTH
  {
    assert |ToLower(token)| != |"fit_height"|;
  }

  /** The saved background column is blank exactly when the badge has no background. */
  lemma BackgroundColumn(b: BadgeData)
    ensures b.background.None? ==> Fields(b)[3] == ""
    ensures b.background.Some? ==> Trim(Fields(b)[3]) != []
  {
    if b.background.Some? {
      var s := ImageName(b) + ".png";
      TrimInfix(s);
      assert s[|s| - 1] == 'g';
    }
  }

  /** A single record reads as the badge `read` gives for it, if any. */
  lemma ReadOne(read: Reader, record: seq<string>, table: map<string, Option<Image>>)
    ensures var step := read(record, table);
      ReadAll(read, [record], 0, table).badges == if step.badge.Some? then [step.badge.value] else []
  {
    assert ReadAll(read, [record], 1, read(record, table).table).badges == [];
  }

  /** Parsing one accepted record gives the one badge `BadgeOf` makes of it. */
  lemma ParseOne(f: seq<string>, table: map<string, Option<Image>>, parent: string,
                 files: string -> LoadOutcome, size: Size)
    requires size.width != 0.0 && Accepted(f)
    ensures ParseFrom([f], table, parent, files, size).badges ==
      [BadgeOf(f, ParseInt(f[0]).value, BackgroundOf(table, parent, f[3], files).0, ShapeOf(size))]
  {
    ReadOne(Reading(parent, files, ShapeOf(size)), f, table);
  }

  /** The fit token written for a fit to the width or to the height reads back as that fit. */
  lemma FitTokenRoundTrip(scaling: Int32)
    requires scaling == BACKGROUND_FIT_WIDTH || scaling == BACKGROUND_FIT_HEIGHT
    ensures |FitToken(scaling)| == 1 && FitOf(FitToken(scaling)[0]) == scaling
  {
    if scaling == BACKGROUND_FIT_HEIGHT {
      FitIgnoresCase("fit_height");
    } else {
      FitOtherwiseWidth("fit_width");
    }
  }

  /** Where each part of a badge sits in its saved record. */
  lemma SavedColumns(b: BadgeData)
    requires b.backgroundScaling == BACKGROUND_FIT_WIDTH || b.backgroundScaling == BACKGROUND_FIT_HEIGHT
    ensures var f := Fields(b);
      |f| == 8 + |b.extraData| && f[1] == b.primaryText && f[2] == b.secondaryText &&
      f[4] == Hex6(b.backgroundColor.Rgb()) && f[5] == Hex6(b.textBackgroundColor.Rgb()) &&
      f[6] == Hex6(b.textColor.Rgb()) && f[7] == FitToken(b.backgroundScaling)[0] && f[8..] == b.extraData
  {
    var f := Fields(b);
    assert f[8..] == b.extraData;
  }

  /** The badge made of a saved record has the saved badge's number, texts, fit and extra data. */
  lemma SavedBadge(b: BadgeData, background: Option<Image>, shape: Shape)
    requires b.backgroundScaling == BACKGROUND_FIT_WIDTH || b.backgroundScaling == BACKGROUND_FIT_HEIGHT
    ensures var d := BadgeOf(Fields(b), b.number, background, shape);
      d.number == b.number && d.primaryText == b.primaryText && d.secondaryText == b.secondaryText &&
      d.backgroundScaling == b.backgroundScaling && d.extraData == b.extraData
  {
    SavedColumns(b);
    FitTokenRoundTrip(b.backgroundScaling);
  }

  /** The badge made of a saved record has each of the saved badge's colours, made opaque. */
  lemma SavedColours(b: BadgeData, background: Option<Image>, shape: Shape)
    requires b.backgroundScaling == BACKGROUND_FIT_WIDTH || b.backgroundScaling == BACKGROUND_FIT_HEIGHT
    ensures var d := BadgeOf(Fields(b), b.number, background, shape);
      d.backgroundColor == Opaque(b.backgroundColor.Rgb()) &&
      d.textBackgroundColor == Opaque(b.textBackgroundColor.Rgb()) &&
      d.textColor == Opaque(b.textColor.Rgb())
  {
    SavedColumns(b);
    ParseHexColorOpaque(b.backgroundColor.Rgb(), false);
    ParseHexColorOpaque(b.textBackgroundColor.Rgb(), false);
    ParseHexColorOpaque(b.textColor.Rgb(), false);
    assert "" + Hex6(b.backgroundColor.Rgb()) == Hex6(b.backgroundColor.Rgb());
    assert "" + Hex6(b.textBackgroundColor.Rgb()) == Hex6(b.textBackgroundColor.Rgb());
    assert "" + Hex6(b.textColor.Rgb()) == Hex6(b.textColor.Rgb());
  }

  /**
   * Saving then parsing a badge whose fit is to the width or to the height gives back its
   * number, texts, fit and extra data, and each colour's RGB (opaque: alpha is not saved).
   */
  lemma RoundTrip(b: BadgeData, table: map<string, Option<Image>>, parent: string,
                  files: string -> LoadOutcome, size: Size)
    requires b.backgroundScaling == BACKGROUND_FIT_WIDTH || b.backgroundScaling == BACKGROUND_FIT_HEIGHT
    requires size.width != 0.0
    ensures var r := ParseFrom([Fields(b)], table, parent, files, size);
      |r.badges| == 1 &&
      r.badges[0].number == b.number && r.badges[0].primaryText == b.primaryText &&
      r.badges[0].secondaryText == b.secondaryText &&
      r.badges[0].backgroundScaling == b.backgroundScaling && r.badges[0].extraData == b.extraData &&
      r.badges[0].backgroundColor == Opaque(b.backgroundColor.Rgb()) &&
      r.badges[0].textBackgroundColor == Opaque(b.textBackgroundColor.Rgb()) &&
      r.badges[0].textColor == Opaque(b.textColor.Rgb())
  {
    var f := Fields(b);
    ParseFormatInt(b.number);
    ParseOne(f, table, parent, files, size);
    SavedBadge(b, BackgroundOf(table, parent, f[3], files).0, ShapeOf(size));
    SavedColours(b, BackgroundOf(table, parent, f[3], files).0, ShapeOf(size));
  }

  /**
   * `BACKGROUND_FILL` writes no fit token, so the first extra data item takes column 7: a
   * filled badge whose extra data is `["fit_height"]` reads back fitted to the height, with
   * no extra data.
   */
  lemma FilledBadge(b: BadgeData, background: Option<Image>, shape: Shape)
    requires b.backgroundScaling == BACKGROUND_FILL && b.extraData == ["fit_height"]
    ensures var d := BadgeOf(Fields(b), b.number, background, shape);
      d.backgroundScaling == BACKGROUND_FIT_HEIGHT && d.extraData == []
  {
    var f := Fields(b);
    assert |f| == 8 && f[7] == "fit_height";
    FitIgnoresCase("fit_height");
  }

  /** The same through a whole parse of the saved record. */
  lemma FillDoesNotRoundTrip(b: BadgeData, table: map<string, Option<Image>>, parent: string,
                             files: string -> LoadOutcome, size: Size)
    requires b.backgroundScaling == BACKGROUND_FILL && b.extraData == ["fit_height"] && size.width != 0.0
    ensures var r := ParseFrom([Fields(b)], table, parent, files, size);
      |r.badges| == 1 && r.badges[0].backgroundScaling == BACKGROUND_FIT_HEIGHT && r.badges[0].extraData == []
  {
    var f := Fields(b);
    ParseFormatInt(b.number);
    ParseOne(f, table, parent, files, size);
    FilledBadge(b, BackgroundOf(table, parent, f[3], files).0, ShapeOf(size));
  }
}
