/** The ingestion side of scripts/celebrity_crawler.py: the Face++ token lookup for a scraped
    photo, the database upsert by name, the per-source JSON list, and the count budget of the two
    crawls and of the script's entry point. Pages, Face++ answers and the birthday conversion are
    inputs; the database and the JSON files are the `CrawlerStore` object. */
module Crawler {
  import opened Common
  import opened Service
  import opened Models
  import opened Description
  import FacePP

  /** A celebrity as the crawler scraped it (`celebrity_data`). `rawData` is the endata record or
      the sina intro fields, with every value as text; the empty text stands for a falsy value. */
  datatype Scraped = Scraped(
    name: string,
    photoUrl: string,
    description: string,
    source: string,
    rawData: map<string, string>,
    detailUrl: Option<string>)

  /** One sina list item: the name link (its text and `href`), the `src` of the image, the intro
      fields (absent when the item has no intro block) and the text of the detail page. */
  datatype SinaItem = SinaItem(
    name: Option<string>,
    href: Option<string>,
    imageSrc: Option<string>,
    intro: Option<map<string, string>>,
    detailText: Option<string>)

  /** The `--source` choice of the script. */
  datatype SourceChoice = EndataOnly | SinaOnly | All

  const EndataDetailPrefix := "https://star.endata.com.cn/Star/Detail?id="

  function Lookup(raw: map<string, string>, key: string): Option<string>
  {
    if key in raw then Some(raw[key]) else None
  }

  /** `dict.get(key, '')`. */
  function TextOf(raw: map<string, string>, key: string): string
  {
    if key in raw then raw[key] else ""
  }

  function DownloadRequest(cfg: FacePP.Config, content: seq<byte>): DetectRequest
  {
    ByFile(cfg.apiKey, cfg.apiSecret, "temp.jpg", content, "image/jpeg", DetectAttributes, None)
  }

  /** `generate_face_token`: no request at all with a short key or a photo URL that is empty or
      not http(s) (`//` gains `https:`); a HEAD probe that must answer 200; a detect by URL; and
      only after an INVALID_IMAGE_URL error, one download that is sent again as a file. */
  function GenerateFaceToken(cfg: FacePP.Config, photoUrl: string, net: Network): (r: TokenLookup)
    ensures TokenFromLastDetect(r, net)
    ensures |r.calls| <= 4
    ensures !FacePP.ValidApiKey(cfg.apiKey) || FacePP.NormalizeUrl(photoUrl).None? ==> r == TokenLookup(None, [])
    ensures |r.calls| > 0 ==> r.calls[0] == HeadCall(FacePP.NormalizeUrl(photoUrl).value)
    ensures |r.calls| > 1 <==>
              && FacePP.ValidApiKey(cfg.apiKey) && FacePP.NormalizeUrl(photoUrl).Some?
              && net.head(FacePP.NormalizeUrl(photoUrl).value).HttpAnswer?
              && net.head(FacePP.NormalizeUrl(photoUrl).value).status == 200
    ensures |r.calls| > 1 ==> r.calls[1] == DetectCall(FacePP.PlainUrlRequest(cfg, FacePP.NormalizeUrl(photoUrl).value))
    ensures |r.calls| > 2 <==>
              && |r.calls| > 1
              && net.detect(FacePP.PlainUrlRequest(cfg, FacePP.NormalizeUrl(photoUrl).value)).DetectAnswer?
              && net.detect(FacePP.PlainUrlRequest(cfg, FacePP.NormalizeUrl(photoUrl).value)).errorMessage.Some?
              && Contains(net.detect(FacePP.PlainUrlRequest(cfg, FacePP.NormalizeUrl(photoUrl).value)).errorMessage.value, ImageUrlCode)
    ensures |r.calls| > 2 ==> r.calls[2] == GetCall(FacePP.NormalizeUrl(photoUrl).value)
    ensures |r.calls| > 3 <==>
              && |r.calls| > 2
              && net.get(FacePP.NormalizeUrl(photoUrl).value).HttpAnswer?
              && net.get(FacePP.NormalizeUrl(photoUrl).value).status == 200
    ensures |r.calls| > 3 ==> r.calls[3] == DetectCall(DownloadRequest(cfg, net.get(FacePP.NormalizeUrl(photoUrl).value).content))
  {
    if !FacePP.ValidApiKey(cfg.apiKey) || photoUrl == "" then TokenLookup(None, [])
    else match FacePP.NormalizeUrl(photoUrl)
      case None => TokenLookup(None, [])
      case Some(url) =>
        var head := net.head(url);
        if !(head.HttpAnswer? && head.status == 200) then TokenLookup(None, [HeadCall(url)])
        else
          var req := FacePP.PlainUrlRequest(cfg, url);
          var probed := [HeadCall(url), DetectCall(req)];
          match net.detect(req)
          case DetectUnreachable(_) => TokenLookup(None, probed)
          case DetectAnswer(None, _) => TokenLookup(FirstToken(net.detect(req)), probed)
          case DetectAnswer(Some(msg), _) =>
            if !Contains(msg, ImageUrlCode) then TokenLookup(None, probed)
            else match net.get(url)
              case HttpAnswer(200, content) =>
                var retry := DownloadRequest(cfg, content);
                TokenLookup(FirstToken(net.detect(retry)), probed + [GetCall(url), DetectCall(retry)])
              case _ => TokenLookup(None, probed + [GetCall(url)])
  }

  /** The index of the first celebrity with this name (`filter(name=...).first()`). */
  function FindByName(cs: seq<Celebrity>, name: string): (r: Option<nat>)
    ensures r.Some? ==> r.value < |cs| && cs[r.value].name == name
                        && forall j :: 0 <= j < r.value ==> cs[j].name != name
    ensures r.None? <==> forall j :: 0 <= j < |cs| ==> cs[j].name != name
  {
    if cs == [] then None
    else if cs[0].name == name then Some(0)
    else match FindByName(cs[1..], name)
      case None => None
      case Some(i) => Some(i + 1)
  }

  predicate UniqueNames(cs: seq<Celebrity>)
  {
    forall i, j :: 0 <= i < j < |cs| ==> cs[i].name != cs[j].name
  }

  /** A raw field as the source names it: the sina key for sina records, the endata key for
      endata records, nothing for any other source. */
  function RawField(d: Scraped, source: string, sinaKey: string, endataKey: string): Option<string>
  {
    if source == "sina" then Lookup(d.rawData, sinaKey)
    else if source == "endata" then Lookup(d.rawData, endataKey)
    else None
  }

  /** The birth date of a record: sina carries the text, endata a timestamp that `toDate` turns
      into a date when it is not falsy (a failed conversion gives nothing). */
  function RawBirthDate(d: Scraped, source: string, toDate: string -> Option<string>): Option<string>
  {
    if source == "sina" then Lookup(d.rawData, "出生日期")
    else if source == "endata" && TextOf(d.rawData, "BirthdayDate") != "" then toDate(d.rawData["BirthdayDate"])
    else None
  }

  /** The row `save_celebrity_to_db` creates for a new name. */
  function NewRecord(id: nat, d: Scraped, source: string, token: Option<Token>, toDate: string -> Option<string>): (r: Celebrity)
    ensures r.id == id && r.name == d.name && r.photo == d.photoUrl && r.faceToken == token
    ensures r.description == Some(d.description) && r.detailUrl == d.detailUrl && r.source == Some(source)
    ensures source == "sina" ==> r.gender == Lookup(d.rawData, "性别") && r.nationality == Lookup(d.rawData, "国籍")
                                 && r.birthDate == Lookup(d.rawData, "出生日期")
    ensures source == "endata" ==> r.gender == Lookup(d.rawData, "StarSex") && r.nationality == Lookup(d.rawData, "Country")
    ensures source == "endata" && TextOf(d.rawData, "BirthdayDate") != "" ==> r.birthDate == toDate(d.rawData["BirthdayDate"])
    ensures source == "endata" && TextOf(d.rawData, "BirthdayDate") == "" ==> r.birthDate.None?
    ensures source != "sina" && source != "endata" ==> r.gender.None? && r.nationality.None? && r.birthDate.None?
  {
    Celebrity(id, d.name, d.photoUrl, token, Some(d.description),
              RawField(d, source, "性别", "StarSex"), RawField(d, source, "国籍", "Country"),
              RawBirthDate(d, source, toDate), d.detailUrl, Some(source))
  }

  /** An existing row after a new token was found for it: the token is set and the empty fields
      are filled; a field that already has a value keeps it. */
  function Merge(c: Celebrity, d: Scraped, source: string, token: Token, toDate: string -> Option<string>): (r: Celebrity)
    ensures r.id == c.id && r.name == c.name && r.photo == c.photo && r.description == c.description
    ensures r.faceToken == Some(token)
    ensures Present(c.gender) ==> r.gender == c.gender
    ensures Present(c.nationality) ==> r.nationality == c.nationality
    ensures Present(c.birthDate) ==> r.birthDate == c.birthDate
    ensures Present(c.detailUrl) ==> r.detailUrl == c.detailUrl
    ensures Present(c.source) ==> r.source == c.source
    ensures !Present(c.detailUrl) ==> r.detailUrl == d.detailUrl
    ensures !Present(c.source) ==> r.source == Some(source)
    ensures source == "sina" && !Present(c.gender) ==> r.gender == Lookup(d.rawData, "性别")
    ensures source == "endata" && !Present(c.gender) ==> r.gender == Lookup(d.rawData, "StarSex")
    ensures source == "sina" && !Present(c.nationality) ==> r.nationality == Lookup(d.rawData, "国籍")
    ensures source == "endata" && !Present(c.nationality) ==> r.nationality == Lookup(d.rawData, "Country")
    ensures source == "sina" && !Present(c.birthDate) ==> r.birthDate == Lookup(d.rawData, "出生日期")
    ensures (source == "endata" && !Present(c.birthDate) && TextOf(d.rawData, "BirthdayDate") != ""
             && toDate(d.rawData["BirthdayDate"]).Some?) ==>
              r.birthDate == toDate(d.rawData["BirthdayDate"])
    ensures source == "endata" && (TextOf(d.rawData, "BirthdayDate") == "" || toDate(d.rawData["BirthdayDate"]).None?) ==>
              r.birthDate == c.birthDate
    ensures source != "sina" && source != "endata" ==>
              r.gender == c.gender && r.nationality == c.nationality && r.birthDate == c.birthDate
  {
    var known := source == "sina" || source == "endata";
    var birth := RawBirthDate(d, source, toDate);
    c.(faceToken := Some(token),
       gender := if !Present(c.gender) && known then RawField(d, source, "性别", "StarSex") else c.gender,
       nationality := if !Present(c.nationality) && known then RawField(d, source, "国籍", "Country") else c.nationality,
       birthDate := if !Present(c.birthDate) && (source == "sina" || birth.Some?) then birth else c.birthDate,
       detailUrl := if !Present(c.detailUrl) then d.detailUrl else c.detailUrl,
       source := if !Present(c.source) then Some(source) else c.source)
  }

  /** The JSON file a source's records go to. */
  function JsonFileName(source: string): string
  {
    source + "_celebrities.json"
  }

  function Entries(files: map<string, seq<Scraped>>, source: string): seq<Scraped>
  {
    if JsonFileName(source) in files then files[JsonFileName(source)] else []
  }

  /** The JSON list after `save_celebrity_to_json`: the record is appended unless an entry with
      the same name is already there. */
  function AppendIfNew(entries: seq<Scraped>, d: Scraped): (r: seq<Scraped>)
    ensures exists e :: e in r && e.name == d.name
    ensures r == entries || r == entries + [d]
    ensures r == entries + [d] <==> forall e :: e in entries ==> e.name != d.name
  {
    if exists e :: e in entries && e.name == d.name then entries
    else
      assert d in entries + [d];
      entries + [d]
  }

  predicate UniqueEntryNames(entries: seq<Scraped>)
  {
    forall i, j :: 0 <= i < j < |entries| ==> entries[i].name != entries[j].name
  }

  /** Appending only new names keeps the names of a JSON list distinct. */
  lemma AppendIfNewKeepsNamesUnique(entries: seq<Scraped>, d: Scraped)
    requires UniqueEntryNames(entries)
    ensures UniqueEntryNames(AppendIfNew(entries, d))
  {
    var r := AppendIfNew(entries, d);
    if r != entries {
      forall i, j | 0 <= i < j < |r| ensures r[i].name != r[j].name {
        if j == |entries| {
          assert r[i] == entries[i] && entries[i] in entries;
        } else {
          assert r[i] == entries[i] && r[j] == entries[j];
        }
      }
    }
  }

  /** The endata record handed to `save_celebrity_to_db` for one star of the API answer. */
  function EndataRecord(star: map<string, string>): (r: Scraped)
    ensures r.name == TextOf(star, "StarBaseName") && r.photoUrl == TextOf(star, "HeadImg")
    ensures r.source == "endata" && r.rawData == star
    ensures r.detailUrl.Some? <==> TextOf(star, "StarBaseID") != ""
    ensures r.detailUrl.Some? ==> r.detailUrl.value == EndataDetailPrefix + star["StarBaseID"]
    ensures r.description == EndataDescription(star)
    ensures r.description == "" <==> ShownCount(EndataFields, star, true) == 0
  {
    EndataDescriptionEmptyIff(star);
    var id := TextOf(star, "StarBaseID");
    Scraped(TextOf(star, "StarBaseName"), TextOf(star, "HeadImg"), EndataDescription(star), "endata", star,
            if id != "" then Some(EndataDetailPrefix + id) else None)
  }

  /** `//` image sources gain the `https:` scheme; any other source is kept. */
  function SinaPhoto(item: SinaItem): (r: string)
    ensures item.imageSrc.None? ==> r == ""
    ensures item.imageSrc.Some? && StartsWith(item.imageSrc.value, "//") ==> r == "https:" + item.imageSrc.value
    ensures item.imageSrc.Some? && !StartsWith(item.imageSrc.value, "//") ==> r == item.imageSrc.value
  {
    if item.imageSrc.None? then ""
    else if StartsWith(item.imageSrc.value, "//") then "https:" + item.imageSrc.value
    else item.imageSrc.value
  }

  /** The sina record for an item with a name and an intro block. */
  function SinaRecord(item: SinaItem): (r: Scraped)
    requires item.name.Some? && item.intro.Some?
    ensures r.name == item.name.value && r.photoUrl == SinaPhoto(item) && r.source == "sina"
    ensures r.rawData == item.intro.value && r.detailUrl == item.href
    ensures r.description == SinaDescription(item.intro.value, item.href, item.detailText)
  {
    Scraped(item.name.value, SinaPhoto(item), SinaDescription(item.intro.value, item.href, item.detailText),
            "sina", item.intro.value, item.href)
  }

  /** How many rows come from the given source. */
  function SourceCount(cs: seq<Celebrity>, source: string): (r: nat)
    ensures r <= |cs|
  {
    if cs == [] then 0
    else SourceCount(cs[..|cs| - 1], source) + (if cs[|cs| - 1].source == Some(source) then 1 else 0)
  }

  /** What `crawl_sina_stars` may still save: `max(0, max_count - current_count)`. */
  function SinaBudget(maxCount: int, current: nat): (r: nat)
    ensures r <= if maxCount < 0 then 0 else maxCount
    ensures current < maxCount ==> r == maxCount - current
    ensures maxCount <= current ==> r == 0
  {
    if maxCount - current > 0 then maxCount - current else 0
  }

  /** The most `crawl_endata_stars` saves: it stops once `max_count` is reached, but it checks
      only after a save, so a budget below one still lets one record through. */
  function EndataCap(maxCount: int): (r: nat)
    ensures r >= 1 && (maxCount >= 1 ==> r == maxCount)
    ensures maxCount < 1 ==> r == 1
  {
    if maxCount < 1 then 1 else maxCount
  }

  /** The crawler's stored state as a value: the celebrity table, the next row id and the JSON
      files by name. */
  datatype Tables = Tables(celebrities: seq<Celebrity>, nextId: nat, jsonFiles: map<string, seq<Scraped>>)

  /** Every row id is below the next id handed out. */
  predicate IdsBelowNext(t: Tables)
  {
    forall i :: 0 <= i < |t.celebrities| ==> t.celebrities[i].id < t.nextId
  }

  /** The tables after one `save_celebrity_to_db`, and whether it created a row. */
  datatype Save = Save(tables: Tables, created: bool)

  /** The outcome of a run of saves: the tables and how many rows were created. */
  datatype Run = Run(tables: Tables, count: nat)

  /** What `save_celebrity_to_db` does to the tables: a new name gets a row with the next id and
      a JSON entry attempt; a known name is left alone unless it had no token and a new one was
      found, and then the row is merged. Only the source's own JSON file can change. */
  function SaveCelebrity(t: Tables, d: Scraped, source: string, cfg: FacePP.Config, net: Network,
                         toDate: string -> Option<string>): (r: Save)
    ensures r.created <==> FindByName(t.celebrities, d.name).None?
    ensures FindByName(r.tables.celebrities, d.name).Some?
    ensures |r.tables.celebrities| == |t.celebrities| + (if r.created then 1 else 0)
    ensures r.tables.nextId == t.nextId + (if r.created then 1 else 0)
    ensures forall i :: 0 <= i < |t.celebrities| ==>
              r.tables.celebrities[i].id == t.celebrities[i].id && r.tables.celebrities[i].name == t.celebrities[i].name
    ensures r.tables.jsonFiles - {JsonFileName(source)} == t.jsonFiles - {JsonFileName(source)}
    ensures !r.created ==> r.tables.jsonFiles == t.jsonFiles
    ensures IdsBelowNext(t) ==> IdsBelowNext(r.tables)
    ensures UniqueNames(t.celebrities) ==> UniqueNames(r.tables.celebrities)
  {
    var token := GenerateFaceToken(cfg, d.photoUrl, net).token;
    match FindByName(t.celebrities, d.name)
    case None =>
      var cs := t.celebrities + [NewRecord(t.nextId, d, source, token, toDate)];
      assert cs[|t.celebrities|].name == d.name;
      Save(Tables(cs, t.nextId + 1,
                  t.jsonFiles[JsonFileName(source) := AppendIfNew(Entries(t.jsonFiles, source), d)]), true)
    case Some(i) =>
      if !Present(t.celebrities[i].faceToken) && Present(token) then
        var cs := t.celebrities[i := Merge(t.celebrities[i], d, source, token.value, toDate)];
        assert cs[i].name == d.name;
        Save(Tables(cs, t.nextId, t.jsonFiles), false)
      else Save(t, false)
  }

  /** A record the crawl hands to `save_celebrity_to_db`: one with a name and a photo. */
  predicate Eligible(e: Option<Scraped>)
  {
    e.Some? && e.value.name != "" && e.value.photoUrl != ""
  }

  /** A crawl over its records in order (`None` for an item that yields no record): every
      eligible record is saved, a created row counts, and the crawl ends as soon as a creation
      brings the count to `stop`. */
  function SaveAll(t: Tables, es: seq<Option<Scraped>>, source: string, stop: int, count: nat,
                   cfg: FacePP.Config, net: Network, toDate: string -> Option<string>): (r: Run)
    ensures r.count >= count
    ensures |r.tables.celebrities| == |t.celebrities| + (r.count - count)
    ensures r.tables.nextId == t.nextId + (r.count - count)
    ensures r.count <= if count < stop then stop else count + 1
    decreases |es|
  {
    if es == [] then Run(t, count)
    else if !Eligible(es[0]) then SaveAll(t, es[1..], source, stop, count, cfg, net, toDate)
    else
      var s := SaveCelebrity(t, es[0].value, source, cfg, net, toDate);
      if !s.created then SaveAll(s.tables, es[1..], source, stop, count, cfg, net, toDate)
      else if count + 1 >= stop then Run(s.tables, count + 1)
      else SaveAll(s.tables, es[1..], source, stop, count + 1, cfg, net, toDate)
  }

  /** One step of a crawl: the first record is skipped, saved without a count, or saved and
      counted, and a creation that reaches `stop` ends the crawl. */
  lemma SaveAllNext(t: Tables, e: Option<Scraped>, rest: seq<Option<Scraped>>, source: string, stop: int, count: nat,
                    cfg: FacePP.Config, net: Network, toDate: string -> Option<string>)
    ensures SaveAll(t, [e] + rest, source, stop, count, cfg, net, toDate) ==
            if !Eligible(e) then SaveAll(t, rest, source, stop, count, cfg, net, toDate)
            else
              var s := SaveCelebrity(t, e.value, source, cfg, net, toDate);
              if !s.created then SaveAll(s.tables, rest, source, stop, count, cfg, net, toDate)
              else if count + 1 >= stop then Run(s.tables, count + 1)
              else SaveAll(s.tables, rest, source, stop, count + 1, cfg, net, toDate)
  {
    assert ([e] + rest)[0] == e && ([e] + rest)[1..] == rest;
  }

  /** A crawl keeps every existing row's id and name, touches no other source's JSON file, and
      keeps the ids below the next id and the names distinct. */
  lemma {:induction false} SaveAllKeepsRows(t: Tables, es: seq<Option<Scraped>>, source: string, stop: int, count: nat,
                                           cfg: FacePP.Config, net: Network, toDate: string -> Option<string>)
    ensures var r := SaveAll(t, es, source, stop, count, cfg, net, toDate);
            && (forall i :: 0 <= i < |t.celebrities| ==>
                  r.tables.celebrities[i].id == t.celebrities[i].id && r.tables.celebrities[i].name == t.celebrities[i].name)
            && r.tables.jsonFiles - {JsonFileName(source)} == t.jsonFiles - {JsonFileName(source)}
            && (IdsBelowNext(t) ==> IdsBelowNext(r.tables))
            && (UniqueNames(t.celebrities) ==> UniqueNames(r.tables.celebrities))
    decreases |es|
  {
    if es != [] && Eligible(es[0]) {
      var s := SaveCelebrity(t, es[0].value, source, cfg, net, toDate);
      SaveAllKeepsRows(s.tables, es[1..], source, stop, count, cfg, net, toDate);
      SaveAllKeepsRows(s.tables, es[1..], source, stop, count + 1, cfg, net, toDate);
    } else if es != [] {
      SaveAllKeepsRows(t, es[1..], source, stop, count, cfg, net, toDate);
    }
  }

  /** A name stored before a crawl is still stored after it. */
  lemma StoredNameStays(t: Tables, es: seq<Option<Scraped>>, source: string, stop: int, count: nat,
                        cfg: FacePP.Config, net: Network, toDate: string -> Option<string>, name: string)
    requires FindByName(t.celebrities, name).Some?
    ensures FindByName(SaveAll(t, es, source, stop, count, cfg, net, toDate).tables.celebrities, name).Some?
  {
    SaveAllKeepsRows(t, es, source, stop, count, cfg, net, toDate);
    var i := FindByName(t.celebrities, name).value;
    assert SaveAll(t, es, source, stop, count, cfg, net, toDate).tables.celebrities[i].name == name;
  }

  /** Unless the crawl ended at its budget, every eligible record it met is in the table
      afterwards (under its name). */
  lemma {:induction false} SaveAllStoresEveryRecord(t: Tables, es: seq<Option<Scraped>>, source: string, stop: int,
                                                    count: nat, cfg: FacePP.Config, net: Network,
                                                    toDate: string -> Option<string>, j: nat)
    requires j < |es| && Eligible(es[j])
    requires SaveAll(t, es, source, stop, count, cfg, net, toDate).count < stop
    ensures FindByName(SaveAll(t, es, source, stop, count, cfg, net, toDate).tables.celebrities, es[j].value.name).Some?
    decreases |es|
  {
    if !Eligible(es[0]) {
      SaveAllStoresEveryRecord(t, es[1..], source, stop, count, cfg, net, toDate, j - 1);
    } else {
      var s := SaveCelebrity(t, es[0].value, source, cfg, net, toDate);
      var c := if s.created then count + 1 else count;
      assert SaveAll(t, es, source, stop, count, cfg, net, toDate) == SaveAll(s.tables, es[1..], source, stop, c, cfg, net, toDate);
      if j == 0 {
        StoredNameStays(s.tables, es[1..], source, stop, c, cfg, net, toDate, es[0].value.name);
      } else {
        SaveAllStoresEveryRecord(s.tables, es[1..], source, stop, c, cfg, net, toDate, j - 1);
      }
    }
  }

  /** The records of one endata page, one per star. */
  function EndataPage(stars: seq<map<string, string>>): seq<Option<Scraped>>
  {
    if stars == [] then [] else [Some(EndataRecord(stars[0]))] + EndataPage(stars[1..])
  }


  /** The records of all endata pages, page by page; a failed page has none. */
  function EndataStream(pages: seq<Option<seq<map<string, string>>>>): seq<Option<Scraped>>
  {
    if pages == [] then []
    else (if pages[0].Some? then EndataPage(pages[0].value) else []) + EndataStream(pages[1..])
  }

  /** The record of a sina item: only an item with a name link and an intro block yields one. */
  function SinaEntry(item: SinaItem): (r: Option<Scraped>)
    ensures r.Some? <==> item.name.Some? && item.intro.Some?
    ensures r.Some? ==> r.value == SinaRecord(item)
  {
    if item.name.Some? && item.intro.Some? then Some(SinaRecord(item)) else None
  }

  /** The records of one sina page, one per item. */
  function SinaPage(items: seq<SinaItem>): seq<Option<Scraped>>
  {
    if items == [] then [] else [SinaEntry(items[0])] + SinaPage(items[1..])
  }


  /** The records of all sina pages, page by page; a failed page has none. */
  function SinaStream(pages: seq<Option<seq<SinaItem>>>): seq<Option<Scraped>>
  {
    if pages == [] then []
    else (if pages[0].Some? then SinaPage(pages[0].value) else []) + SinaStream(pages[1..])
  }

  /** `crawl_endata_stars` on the tables: its count may reach `max_count` only by a creation. */
  function EndataRun(t: Tables, pages: seq<Option<seq<map<string, string>>>>, maxCount: int,
                     cfg: FacePP.Config, net: Network, toDate: string -> Option<string>): Run
  {
    SaveAll(t, EndataStream(pages), "endata", maxCount, 0, cfg, net, toDate)
  }

  /** `crawl_sina_stars` on the tables: nothing at all when the sina rows already fill
      `max_count`, otherwise a crawl that ends when the remaining budget is reached. */
  function SinaRun(t: Tables, pages: seq<Option<seq<SinaItem>>>, maxCount: int,
                   cfg: FacePP.Config, net: Network, toDate: string -> Option<string>): Run
  {
    var remaining := SinaBudget(maxCount, SourceCount(t.celebrities, "sina"));
    if remaining == 0 then Run(t, 0) else SaveAll(t, SinaStream(pages), "sina", remaining, 0, cfg, net, toDate)
  }

  /** The script's entry point on the tables: endata unless only sina was chosen, then sina
      unless only endata was chosen and only while the endata count is below `max_count`, with
      what is left of it. */
  function CrawlRun(choice: SourceChoice, maxCount: int, endataPages: seq<Option<seq<map<string, string>>>>,
                    sinaPages: seq<Option<seq<SinaItem>>>, t: Tables,
                    cfg: FacePP.Config, net: Network, toDate: string -> Option<string>): Run
  {
    var e := if choice != SinaOnly then EndataRun(t, endataPages, maxCount, cfg, net, toDate) else Run(t, 0);
    if choice != EndataOnly && e.count < maxCount then
      var s := SinaRun(e.tables, sinaPages, maxCount - e.count, cfg, net, toDate);
      Run(s.tables, e.count + s.count)
    else e
  }

  /** Entry `k` of a page is among its records. */
  lemma {:induction false} EndataPageHas(xs: seq<map<string, string>>, k: nat)
    requires k < |xs|
    ensures Some(EndataRecord(xs[k])) in EndataPage(xs)
  {
    if k > 0 {
      assert xs[1..][k - 1] == xs[k];
      EndataPageHas(xs[1..], k - 1);
    }
  }

  /** Entry `k` of page `p` is among the records of all pages. */
  lemma {:induction false} EndataStreamHas(pages: seq<Option<seq<map<string, string>>>>, p: nat, k: nat)
    requires p < |pages| && pages[p].Some? && k < |pages[p].value|
    ensures Some(EndataRecord(pages[p].value[k])) in EndataStream(pages)
  {
    if p == 0 {
      EndataPageHas(pages[0].value, k);
    } else {
      assert pages[1..][p - 1] == pages[p];
      EndataStreamHas(pages[1..], p - 1, k);
    }
  }

  /** Entry `k` of a page is among its records. */
  lemma {:induction false} SinaPageHas(xs: seq<SinaItem>, k: nat)
    requires k < |xs|
    ensures SinaEntry(xs[k]) in SinaPage(xs)
  {
    if k > 0 {
      assert xs[1..][k - 1] == xs[k];
      SinaPageHas(xs[1..], k - 1);
    }
  }

  /** Entry `k` of page `p` is among the records of all pages. */
  lemma {:induction false} SinaStreamHas(pages: seq<Option<seq<SinaItem>>>, p: nat, k: nat)
    requires p < |pages| && pages[p].Some? && k < |pages[p].value|
    ensures SinaEntry(pages[p].value[k]) in SinaStream(pages)
  {
    if p == 0 {
      SinaPageHas(pages[0].value, k);
    } else {
      assert pages[1..][p - 1] == pages[p];
      SinaStreamHas(pages[1..], p - 1, k);
    }
  }

  /** An endata crawl that ends below `max_count` stored every star that has a name and a
      photo, on every page that answered. */
  lemma EndataRunStoresEveryStar(t: Tables, pages: seq<Option<seq<map<string, string>>>>, maxCount: int,
                                 cfg: FacePP.Config, net: Network, toDate: string -> Option<string>, p: nat, k: nat)
    requires p < |pages| && pages[p].Some? && k < |pages[p].value|
    requires TextOf(pages[p].value[k], "StarBaseName") != "" && TextOf(pages[p].value[k], "HeadImg") != ""
    requires EndataRun(t, pages, maxCount, cfg, net, toDate).count < maxCount
    ensures FindByName(EndataRun(t, pages, maxCount, cfg, net, toDate).tables.celebrities,
                       TextOf(pages[p].value[k], "StarBaseName")).Some?
  {
    EndataStreamHas(pages, p, k);
    var j :| 0 <= j < |EndataStream(pages)| && EndataStream(pages)[j] == Some(EndataRecord(pages[p].value[k]));
    SaveAllStoresEveryRecord(t, EndataStream(pages), "endata", maxCount, 0, cfg, net, toDate, j);
  }

  /** A sina crawl with budget left that ends below it stored every item that has a name link,
      an intro block, a name and a photo, on every page that answered. */
  lemma SinaRunStoresEveryItem(t: Tables, pages: seq<Option<seq<SinaItem>>>, maxCount: int,
                               cfg: FacePP.Config, net: Network, toDate: string -> Option<string>, p: nat, k: nat)
    requires p < |pages| && pages[p].Some? && k < |pages[p].value|
    requires pages[p].value[k].name.Some? && pages[p].value[k].intro.Some?
    requires pages[p].value[k].name.value != "" && SinaPhoto(pages[p].value[k]) != ""
    requires SinaRun(t, pages, maxCount, cfg, net, toDate).count < SinaBudget(maxCount, SourceCount(t.celebrities, "sina"))
    ensures FindByName(SinaRun(t, pages, maxCount, cfg, net, toDate).tables.celebrities,
                       pages[p].value[k].name.value).Some?
  {
    SinaStreamHas(pages, p, k);
    var j :| 0 <= j < |SinaStream(pages)| && SinaStream(pages)[j] == SinaEntry(pages[p].value[k]);
    var remaining := SinaBudget(maxCount, SourceCount(t.celebrities, "sina"));
    SaveAllStoresEveryRecord(t, SinaStream(pages), "sina", remaining, 0, cfg, net, toDate, j);
  }

  /** Two changes confined to files `x` and `y` leave every other file as it was. */
  lemma FilesOutsideStay(a: map<string, seq<Scraped>>, b: map<string, seq<Scraped>>, c: map<string, seq<Scraped>>,
                         x: string, y: string)
    requires (a - {x} == b - {x} && b - {y} == c - {y}) || (a - {y} == b - {y} && b - {x} == c - {x})
    ensures a - {x, y} == c - {x, y}
  {
    if a - {x} == b - {x} && b - {y} == c - {y} {
      assert a - {x, y} == (a - {x}) - {y} == (b - {x}) - {y};
      assert c - {x, y} == (c - {y}) - {x} == (b - {y}) - {x};
    } else {
      assert a - {x, y} == (a - {y}) - {x} == (b - {y}) - {x};
      assert c - {x, y} == (c - {x}) - {y} == (b - {x}) - {y};
    }
  }

  /** What the entry point promises: at most `max(1, max_count)` rows in all, at most
      `max(0, max_count)` when only sina runs, one new row per count, the old rows keep their id
      and name, and the ids stay below the next id and the names distinct. */
  lemma CrawlRunBounds(choice: SourceChoice, maxCount: int, endataPages: seq<Option<seq<map<string, string>>>>,
                       sinaPages: seq<Option<seq<SinaItem>>>, t: Tables,
                       cfg: FacePP.Config, net: Network, toDate: string -> Option<string>)
    ensures var r := CrawlRun(choice, maxCount, endataPages, sinaPages, t, cfg, net, toDate);
            && r.count <= EndataCap(maxCount)
            && (choice == SinaOnly ==> r.count <= if maxCount < 0 then 0 else maxCount)
            && |r.tables.celebrities| == |t.celebrities| + r.count
            && r.tables.nextId == t.nextId + r.count
            && (forall i :: 0 <= i < |t.celebrities| ==>
                  r.tables.celebrities[i].id == t.celebrities[i].id && r.tables.celebrities[i].name == t.celebrities[i].name)
            && (IdsBelowNext(t) ==> IdsBelowNext(r.tables))
            && (UniqueNames(t.celebrities) ==> UniqueNames(r.tables.celebrities))
  {
    var e := if choice != SinaOnly then EndataRun(t, endataPages, maxCount, cfg, net, toDate) else Run(t, 0);
    if choice != SinaOnly {
      SaveAllKeepsRows(t, EndataStream(endataPages), "endata", maxCount, 0, cfg, net, toDate);
    }
    if choice != EndataOnly && e.count < maxCount {
      var remaining := SinaBudget(maxCount - e.count, SourceCount(e.tables.celebrities, "sina"));
      if remaining != 0 {
        SaveAllKeepsRows(e.tables, SinaStream(sinaPages), "sina", remaining, 0, cfg, net, toDate);
      }
    }
  }

  /** The entry point writes only the JSON files of the sources it crawled. */
  lemma CrawlRunTouchesOnlyItsFiles(choice: SourceChoice, maxCount: int, endataPages: seq<Option<seq<map<string, string>>>>,
                                    sinaPages: seq<Option<seq<SinaItem>>>, t: Tables,
                                    cfg: FacePP.Config, net: Network, toDate: string -> Option<string>)
    ensures var r := CrawlRun(choice, maxCount, endataPages, sinaPages, t, cfg, net, toDate);
            && (choice == EndataOnly ==> r.tables.jsonFiles - {JsonFileName("endata")} == t.jsonFiles - {JsonFileName("endata")})
            && (choice == SinaOnly ==> r.tables.jsonFiles - {JsonFileName("sina")} == t.jsonFiles - {JsonFileName("sina")})
            && r.tables.jsonFiles - {JsonFileName("endata"), JsonFileName("sina")}
               == t.jsonFiles - {JsonFileName("endata"), JsonFileName("sina")}
  {
    var e := if choice != SinaOnly then EndataRun(t, endataPages, maxCount, cfg, net, toDate) else Run(t, 0);
    if choice != SinaOnly {
      SaveAllKeepsRows(t, EndataStream(endataPages), "endata", maxCount, 0, cfg, net, toDate);
    }
    if choice != EndataOnly && e.count < maxCount {
      var remaining := SinaBudget(maxCount - e.count, SourceCount(e.tables.celebrities, "sina"));
      if remaining != 0 {
        SaveAllKeepsRows(e.tables, SinaStream(sinaPages), "sina", remaining, 0, cfg, net, toDate);
      }
      var r := CrawlRun(choice, maxCount, endataPages, sinaPages, t, cfg, net, toDate);
      FilesOutsideStay(r.tables.jsonFiles, e.tables.jsonFiles, t.jsonFiles, JsonFileName("endata"), JsonFileName("sina"));
    } else {
      FilesOutsideStay(e.tables.jsonFiles, t.jsonFiles, t.jsonFiles, JsonFileName("endata"), JsonFileName("sina"));
    }
  }

  /** The celebrity table and the per-source JSON files the crawler writes. */
  class CrawlerStore {
    var celebrities: seq<Celebrity>
    var nextId: nat
    var jsonFiles: map<string, seq<Scraped>>

    /** The stored state as a value. */
    function State(): Tables
      reads this
    {
      Tables(celebrities, nextId, jsonFiles)
    }

    /** Every row id is below the next id handed out. */
    ghost predicate Valid()
      reads this
    {
      IdsBelowNext(State())
    }

    constructor (cs: seq<Celebrity>, next: nat, files: map<string, seq<Scraped>>)
      requires forall c :: c in cs ==> c.id < next
      ensures Valid()
      ensures celebrities == cs && nextId == next && jsonFiles == files
    {
      celebrities := cs;
      nextId := next;
      jsonFiles := files;
    }

    /** `save_celebrity_to_json`: the source's list gains the record only under a new name; no
        other file changes. */
    method SaveToJson(d: Scraped, source: string)
      modifies this
      ensures jsonFiles == old(jsonFiles)[JsonFileName(source) := AppendIfNew(Entries(old(jsonFiles), source), d)]
      ensures celebrities == old(celebrities) && nextId == old(nextId)
    {
      var entries := Entries(jsonFiles, source);
      var i := 0;
      var exists_ := false;
      while i < |entries|
        invariant 0 <= i <= |entries|
        invariant exists_ <==> exists e :: e in entries[..i] && e.name == d.name
      {
        assert entries[..i + 1] == entries[..i] + [entries[i]];
        if entries[i].name == d.name {
          exists_ := true;
        }
        i := i + 1;
      }
      assert entries[..i] == entries;
      if !exists_ {
        entries := entries + [d];
      }
      jsonFiles := jsonFiles[JsonFileName(source) := entries];
    }

    /** `save_celebrity_to_db`. A new name gets one new row and one JSON entry attempt and
        answers true. An existing row answers false; it changes only when it had no token and a
        new one was found, and then only through `Merge`. */
    method SaveToDb(d: Scraped, source: string, cfg: FacePP.Config, net: Network, toDate: string -> Option<string>)
      returns (created: bool)
      requires Valid()
      modifies this
      ensures Valid()
      ensures created <==> FindByName(old(celebrities), d.name).None?
      ensures |celebrities| == |old(celebrities)| + (if created then 1 else 0)
      ensures created ==>
                && celebrities == old(celebrities) + [NewRecord(old(nextId), d, source, GenerateFaceToken(cfg, d.photoUrl, net).token, toDate)]
                && nextId == old(nextId) + 1
                && jsonFiles == old(jsonFiles)[JsonFileName(source) := AppendIfNew(Entries(old(jsonFiles), source), d)]
      ensures !created ==>
                && nextId == old(nextId) && jsonFiles == old(jsonFiles)
                && var i := FindByName(old(celebrities), d.name).value;
                   var token := GenerateFaceToken(cfg, d.photoUrl, net).token;
                   celebrities == if !Present(old(celebrities)[i].faceToken) && Present(token)
                                  then old(celebrities)[i := Merge(old(celebrities)[i], d, source, token.value, toDate)]
                                  else old(celebrities)
      ensures UniqueNames(old(celebrities)) ==> UniqueNames(celebrities)
      ensures Save(State(), created) == SaveCelebrity(old(State()), d, source, cfg, net, toDate)
    {
      var found := FindByName(celebrities, d.name);
      if found.None? {
        var token := GenerateFaceToken(cfg, d.photoUrl, net).token;
        celebrities := celebrities + [NewRecord(nextId, d, source, token, toDate)];
        nextId := nextId + 1;
        SaveToJson(d, source);
        return true;
      }
      var i := found.value;
      if !Present(celebrities[i].faceToken) {
        var token := GenerateFaceToken(cfg, d.photoUrl, net).token;
        if Present(token) {
          celebrities := celebrities[i := Merge(celebrities[i], d, source, token.value, toDate)];
        }
      }
      return false;
    }

    /** The loop over one page's records that both crawls share: each eligible record is
        saved, a created row counts, and `done` is set when the count reaches `stop` (the crawl
        then returns). `tail` stands for the records of the pages still to come. */
    method SaveRecords(records: seq<Option<Scraped>>, source: string, stop: int, count0: nat,
                       ghost tail: seq<Option<Scraped>>,
                       cfg: FacePP.Config, net: Network, toDate: string -> Option<string>)
      returns (count: nat, done: bool)
      requires Valid()
      modifies this
      ensures Valid()
      ensures !done ==> count == count0 || count < stop
      ensures SaveAll(old(State()), records + tail, source, stop, count0, cfg, net, toDate) ==
              if done then Run(State(), count) else SaveAll(State(), tail, source, stop, count, cfg, net, toDate)
    {
      count, done := count0, false;
      var k := 0;
      assert records[k..] == records;
      while k < |records|
        invariant 0 <= k <= |records|
        invariant Valid()
        invariant count == count0 || count < stop
        invariant SaveAll(old(State()), records + tail, source, stop, count0, cfg, net, toDate) ==
                  SaveAll(State(), records[k..] + tail, source, stop, count, cfg, net, toDate)
      {
        ghost var rest := records[k + 1..] + tail;
        assert records[k..] + tail == [records[k]] + rest;
        SaveAllNext(State(), records[k], rest, source, stop, count, cfg, net, toDate);
        if Eligible(records[k]) {
          ghost var saved := SaveCelebrity(State(), records[k].value, source, cfg, net, toDate);
          var created := SaveToDb(records[k].value, source, cfg, net, toDate);
          assert State() == saved.tables && created == saved.created;
          if created {
            count := count + 1;
            if count >= stop {
              done := true;
              return;
            }
          }
        }
        k := k + 1;
      }
      assert records[k..] + tail == tail;
    }

    /** `crawl_endata_stars`: each API page is the star list, or nothing when the request or
        its format failed. Only saves that created a row count, and the crawl returns as soon
        as the count reaches `max_count`. */
    method CrawlEndata(pages: seq<Option<seq<map<string, string>>>>, maxCount: int,
                       cfg: FacePP.Config, net: Network, toDate: string -> Option<string>)
      returns (count: nat)
      requires Valid()
      modifies this
      ensures Valid()
      ensures count <= EndataCap(maxCount)
      ensures |celebrities| == |old(celebrities)| + count
      ensures UniqueNames(old(celebrities)) ==> UniqueNames(celebrities)
      ensures Run(State(), count) == EndataRun(old(State()), pages, maxCount, cfg, net, toDate)
    {
      ghost var goal := EndataRun(State(), pages, maxCount, cfg, net, toDate);
      SaveAllKeepsRows(State(), EndataStream(pages), "endata", maxCount, 0, cfg, net, toDate);
      count := 0;
      var p := 0;
      while p < |pages|
        invariant 0 <= p <= |pages|
        invariant Valid()
        invariant goal == SaveAll(State(), EndataStream(pages[p..]), "endata", maxCount, count, cfg, net, toDate)
      {
        assert pages[p..][1..] == pages[p + 1..];
        assert EndataStream(pages[p..]) == (if pages[p].Some? then EndataPage(pages[p].value) else []) + EndataStream(pages[p + 1..]);
        if pages[p].Some? {
          var done;
          count, done := SaveRecords(EndataPage(pages[p].value), "endata", maxCount, count,
                                     EndataStream(pages[p + 1..]), cfg, net, toDate);
          if done {
            return;
          }
        } else {
          assert EndataStream(pages[p..]) == EndataStream(pages[p + 1..]);
        }
        p := p + 1;
      }
      assert pages[p..] == [];
    }

    /** `crawl_sina_stars`: the budget is `max_count` less the sina rows already stored; the
        crawl stops before a page once the budget is spent and returns as soon as it is reached.
        Items without a name link or an intro block are skipped, and a page without items moves
        on to the next one (the later end-of-list check cannot be reached). */
    method CrawlSina(pages: seq<Option<seq<SinaItem>>>, maxCount: int,
                     cfg: FacePP.Config, net: Network, toDate: string -> Option<string>)
      returns (count: nat)
      requires Valid()
      modifies this
      ensures Valid()
      ensures count <= SinaBudget(maxCount, SourceCount(old(celebrities), "sina"))
      ensures |celebrities| == |old(celebrities)| + count
      ensures UniqueNames(old(celebrities)) ==> UniqueNames(celebrities)
      ensures Run(State(), count) == SinaRun(old(State()), pages, maxCount, cfg, net, toDate)
    {
      ghost var goal := SinaRun(State(), pages, maxCount, cfg, net, toDate);
      count := 0;
      var remaining := SinaBudget(maxCount, SourceCount(celebrities, "sina"));
      if remaining != 0 {
        SaveAllKeepsRows(State(), SinaStream(pages), "sina", remaining, 0, cfg, net, toDate);
      }
      var p := 0;
      while p < |pages|
        invariant 0 <= p <= |pages|
        invariant Valid()
        invariant remaining == 0 ==> goal == Run(State(), count)
        invariant remaining != 0 ==> count < remaining
        invariant remaining != 0 ==> goal == SaveAll(State(), SinaStream(pages[p..]), "sina", remaining, count, cfg, net, toDate)
      {
        if count >= remaining {
          break;
        }
        assert pages[p..][1..] == pages[p + 1..];
        assert SinaStream(pages[p..]) == (if pages[p].Some? then SinaPage(pages[p].value) else []) + SinaStream(pages[p + 1..]);
        if pages[p].Some? {
          var done;
          count, done := SaveRecords(SinaPage(pages[p].value), "sina", remaining, count,
                                     SinaStream(pages[p + 1..]), cfg, net, toDate);
          if done {
            return;
          }
        } else {
          assert SinaStream(pages[p..]) == SinaStream(pages[p + 1..]);
        }
        p := p + 1;
      }
      if remaining != 0 {
        assert pages[p..] == [];
      }
    }

    /** The script's entry point: endata first, then sina with what is left of `max_count`, and
        only while the total is still below it. */
    method RunCrawler(choice: SourceChoice, maxCount: int,
                      endataPages: seq<Option<seq<map<string, string>>>>, sinaPages: seq<Option<seq<SinaItem>>>,
                      cfg: FacePP.Config, net: Network, toDate: string -> Option<string>)
      returns (total: nat)
      requires Valid()
      modifies this
      ensures Valid()
      ensures total <= EndataCap(maxCount)
      ensures choice == SinaOnly ==> total <= (if maxCount < 0 then 0 else maxCount)
      ensures |celebrities| == |old(celebrities)| + total
      ensures UniqueNames(old(celebrities)) ==> UniqueNames(celebrities)
      ensures Run(State(), total) == CrawlRun(choice, maxCount, endataPages, sinaPages, old(State()), cfg, net, toDate)
    {
      total := 0;
      if choice == EndataOnly || choice == All {
        var endataCount := CrawlEndata(endataPages, maxCount, cfg, net, toDate);
        total := total + endataCount;
      }
      if (choice == SinaOnly || choice == All) && total < maxCount {
        var sinaCount := CrawlSina(sinaPages, maxCount - total, cfg, net, toDate);
        total := total + sinaCount;
      }
    }
  }
}
