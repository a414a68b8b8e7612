/** The celebrity descriptions the crawler (scripts/celebrity_crawler.py) writes: one
    "label: value" line per field that is present, in a fixed field order, joined by newlines.
    The source spells each field out as its own `if`; here the order is a table. */
module Description {
  import opened Common

  /** A field of the scraped record: the key it is read under, the caption written before the
      value and the unit written after it. */
  datatype Field = Field(key: string, caption: string, suffix: string)

  /** The fields of an endata star record, in the order they are listed. */
  const EndataFields: seq<Field> := [
    Field("BirthYear", "年代: ", ""),
    Field("StarAge", "年龄: ", "岁"),
    Field("StarSex", "性别: ", ""),
    Field("Country", "国家/地区: ", ""),
    Field("Professions", "职业: ", ""),
    Field("StarCustomTags", "标签: ", ""),
    Field("Irank", "艺恩指数排名: ", ""),
    Field("FlowValueIndex_L1", "流量价值指数: ", ""),
    Field("MajorHotIndex_L2", "热度指数: ", "")
  ]

  /** The fields of a sina intro block, in the order they are listed. */
  const SinaFields: seq<Field> := [
    Field("性别", "性别: ", ""),
    Field("职业", "职业: ", ""),
    Field("国籍", "国籍: ", ""),
    Field("出生日期", "出生日期: ", ""),
    Field("星座", "星座: ", ""),
    Field("身高", "身高: ", "")
  ]

  /** Whether a field is written: its key is present and, when `nonEmpty` is asked for (the
      endata records, tested for truthiness), its value is not empty. */
  predicate Shown(f: Field, info: map<string, string>, nonEmpty: bool)
  {
    f.key in info && (!nonEmpty || info[f.key] != "")
  }

  function Line(f: Field, info: map<string, string>): string
    requires f.key in info
  {
    f.caption + info[f.key] + f.suffix
  }

  /** How many of `fields` are written. */
  function ShownCount(fields: seq<Field>, info: map<string, string>, nonEmpty: bool): (r: nat)
    ensures r <= |fields|
  {
    if fields == [] then 0
    else (if Shown(fields[0], info, nonEmpty) then 1 else 0) + ShownCount(fields[1..], info, nonEmpty)
  }

  /** The description lines. The line of a written field sits at the position given by the
      number of written fields before it, so lines keep the table order and nothing else is
      listed. */
  function Lines(fields: seq<Field>, info: map<string, string>, nonEmpty: bool): (r: seq<string>)
    ensures |r| == ShownCount(fields, info, nonEmpty)
    ensures forall i :: 0 <= i < |fields| && Shown(fields[i], info, nonEmpty) ==>
              ShownCount(fields[..i], info, nonEmpty) < |r| && r[ShownCount(fields[..i], info, nonEmpty)] == Line(fields[i], info)
  {
    if fields == [] then []
    else
      var rest := Lines(fields[1..], info, nonEmpty);
      var head := if Shown(fields[0], info, nonEmpty) then [Line(fields[0], info)] else [];
      assert forall i :: 1 <= i < |fields| ==> fields[1..][..i - 1] == fields[1..i] && fields[..i][1..] == fields[1..i];
      assert fields[..0] == [];
      head + rest
  }

  /** Counting written fields is monotone in the prefix: a later written field gets a later line. */
  lemma {:induction false} ShownCountIncreases(fields: seq<Field>, info: map<string, string>, nonEmpty: bool, i: nat, j: nat)
    requires i < j <= |fields| && Shown(fields[i], info, nonEmpty)
    ensures ShownCount(fields[..i], info, nonEmpty) < ShownCount(fields[..j], info, nonEmpty)
  {
    if i == 0 {
      assert fields[..j][0] == fields[0];
      assert fields[..0] == [];
    } else {
      assert fields[..i][1..] == fields[1..][..i - 1];
      assert fields[..j][1..] == fields[1..][..j - 1];
      ShownCountIncreases(fields[1..], info, nonEmpty, i - 1, j - 1);
    }
  }

  /** Python's `sep.join(parts)`. */
  function Join(parts: seq<string>, sep: string): string
  {
    if parts == [] then ""
    else if |parts| == 1 then parts[0]
    else parts[0] + sep + Join(parts[1..], sep)
  }

  /** Every line carries its label, so a description is empty exactly when no field is written. */
  lemma {:induction false} DescriptionEmptyIff(fields: seq<Field>, info: map<string, string>, nonEmpty: bool)
    requires forall f :: f in fields ==> f.caption != ""
    ensures Join(Lines(fields, info, nonEmpty), "\n") == "" <==> ShownCount(fields, info, nonEmpty) == 0
  {
    var lines := Lines(fields, info, nonEmpty);
    if |lines| > 0 {
      assert |lines[0]| > 0 by {
        var i := FirstShown(fields, info, nonEmpty);
        assert fields[i] in fields;
      }
    }
  }

  /** The first written field: it owns line 0. */
  lemma {:induction false} FirstShown(fields: seq<Field>, info: map<string, string>, nonEmpty: bool) returns (i: nat)
    requires ShownCount(fields, info, nonEmpty) > 0
    ensures i < |fields| && Shown(fields[i], info, nonEmpty) && ShownCount(fields[..i], info, nonEmpty) == 0
  {
    if Shown(fields[0], info, nonEmpty) {
      i := 0;
      assert fields[..0] == [];
    } else {
      var j := FirstShown(fields[1..], info, nonEmpty);
      i := j + 1;
      assert fields[..i][1..] == fields[1..][..j];
    }
  }

  /** The description of an endata star: every truthy field of the record. */
  function EndataDescription(star: map<string, string>): string
  {
    Join(Lines(EndataFields, star, true), "\n")
  }

  /** An endata description is empty exactly when the record has no truthy field. */
  lemma EndataDescriptionEmptyIff(star: map<string, string>)
    ensures EndataDescription(star) == "" <==> ShownCount(EndataFields, star, true) == 0
  {
    DescriptionEmptyIff(EndataFields, star, true);
  }

  /** The description of a sina star: every field of its intro block, followed by the text of
      its detail page after a blank line when a detail link exists and the text is not empty. */
  function SinaDescription(info: map<string, string>, detailUrl: Option<string>, detailText: Option<string>): (r: string)
    ensures |r| >= |Join(Lines(SinaFields, info, false), "\n")|
    ensures r[..|Join(Lines(SinaFields, info, false), "\n")|] == Join(Lines(SinaFields, info, false), "\n")
    ensures Present(detailUrl) && Present(detailText) ==>
              r == Join(Lines(SinaFields, info, false), "\n") + "\n\n" + detailText.value
    ensures !Present(detailUrl) || !Present(detailText) ==> r == Join(Lines(SinaFields, info, false), "\n")
  {
    var base := Join(Lines(SinaFields, info, false), "\n");
    if Present(detailUrl) && Present(detailText) then base + "\n\n" + detailText.value else base
  }
}
