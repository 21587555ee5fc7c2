/**
 * Editable page copy: the per-page section map, the keyed upsert on
 * (page, section), and the admin list ordered by page and then section.
 */
module Content {
  import opened Wrappers
  import opened Seqs
  import opened Records
  import opened Db

  /** The rows `getPageContent` reads: this page, active only. */
  function PageRows(content: seq<ContentRow>, page: string): (r: seq<ContentRow>)
    ensures forall k :: 0 <= k < |r| ==> r[k].pageName == page && r[k].isActive
    ensures forall j :: 0 <= j < |content| && content[j].pageName == page && content[j].isActive ==> content[j] in r
  {
    Filter(content, (c: ContentRow) => c.pageName == page && c.isActive)
  }

  /** The `reduce`: each row in turn sets `acc[section_name] = content`. */
  function SectionMap(rows: seq<ContentRow>): map<string, string>
    decreases |rows|
  {
    if rows == [] then map[]
    else SectionMap(rows[..|rows| - 1])[rows[|rows| - 1].sectionName := rows[|rows| - 1].content]
  }

  function SectionOf(c: ContentRow): string { c.sectionName }

  /** Every row's section is a key of the map. */
  lemma {:induction false} SectionMapHas(rows: seq<ContentRow>, k: nat)
    requires k < |rows|
    ensures rows[k].sectionName in SectionMap(rows)
    decreases |rows|
  {
    if k < |rows| - 1 {
      SectionMapHas(rows[..|rows| - 1], k);
    }
  }

  /** Every key of the map is some row's section. */
  lemma {:induction false} SectionMapOnly(rows: seq<ContentRow>, name: string)
    requires name in SectionMap(rows)
    ensures exists k :: 0 <= k < |rows| && rows[k].sectionName == name
    decreases |rows|
  {
    if name != rows[|rows| - 1].sectionName {
      var init := rows[..|rows| - 1];
      SectionMapOnly(init, name);
      var k :| 0 <= k < |init| && init[k].sectionName == name;
      assert rows[k] == init[k];
    }
  }

  /** With distinct sections, each section maps to its own row's content. */
  lemma {:induction false} SectionMapValue(rows: seq<ContentRow>, k: nat)
    requires UniqueBy(rows, SectionOf) && k < |rows|
    ensures rows[k].sectionName in SectionMap(rows) && SectionMap(rows)[rows[k].sectionName] == rows[k].content
    decreases |rows|
  {
    SectionMapHas(rows, k);
    var last := |rows| - 1;
    if k < last {
      assert SectionOf(rows[k]) != SectionOf(rows[last]);
      var init := rows[..last];
      assert UniqueBy(init, SectionOf);
      SectionMapValue(init, k);
    }
  }

  /**
   * With at most one row per (page, section), `getPageContent` maps each
   * active section of the page to its content and has no other key.
   */
  lemma PageContentCorrect(content: seq<ContentRow>, page: string)
    requires UniqueBy(content, ContentKey)
    ensures var m := SectionMap(PageRows(content, page));
            forall name :: name in m ==>
              exists j :: 0 <= j < |content| && content[j].pageName == page && content[j].isActive
                          && content[j].sectionName == name
    ensures var m := SectionMap(PageRows(content, page));
            forall j :: 0 <= j < |content| && content[j].pageName == page && content[j].isActive ==>
              content[j].sectionName in m && m[content[j].sectionName] == content[j].content
  {
    var rows := PageRows(content, page);
    var m := SectionMap(rows);
    FilterKeepsUnique(content, (c: ContentRow) => c.pageName == page && c.isActive, ContentKey);
    assert UniqueBy(rows, SectionOf) by {
      forall i, j | 0 <= i < j < |rows| ensures SectionOf(rows[i]) != SectionOf(rows[j]) {
        assert ContentKey(rows[i]) != ContentKey(rows[j]);
      }
    }
    forall name | name in m
      ensures exists j :: 0 <= j < |content| && content[j].pageName == page && content[j].isActive
                          && content[j].sectionName == name
    {
      SectionMapOnly(rows, name);
      var k :| 0 <= k < |rows| && rows[k].sectionName == name;
      assert rows[k] in content;
    }
    forall j | 0 <= j < |content| && content[j].pageName == page && content[j].isActive
      ensures content[j].sectionName in m && m[content[j].sectionName] == content[j].content
    {
      assert content[j] in rows;
      var k :| 0 <= k < |rows| && rows[k] == content[j];
      SectionMapValue(rows, k);
    }
  }

  /** The handler's `reduce` loop over the rows the query returns. */
  method GetPageContent(db: Store, page: string) returns (acc: map<string, string>)
    ensures acc == SectionMap(PageRows(db.content, page))
  {
    var rows := PageRows(db.content, page);
    acc := map[];
    var i := 0;
    while i < |rows|
      invariant 0 <= i <= |rows|
      invariant acc == SectionMap(rows[..i])
    {
      assert rows[..i + 1][..i] == rows[..i];
      acc := acc[rows[i].sectionName := rows[i].content];
      i := i + 1;
    }
    assert rows[..i] == rows;
  }

  /** `is_active !== undefined ? is_active : true`. */
  function ActiveFlag(isActive: Option<bool>): (b: bool)
    ensures isActive.None? ==> b
    ensures isActive.Some? ==> b == isActive.value
  {
    isActive.GetOr(true)
  }

  function ContentIndex(content: seq<ContentRow>, page: string, section: string): (r: Option<nat>)
    ensures r.Some? ==> r.value < |content| && ContentKey(content[r.value]) == (page, section)
    ensures r.None? <==> forall j :: 0 <= j < |content| ==> ContentKey(content[j]) != (page, section)
  {
    FindIndex(content, (c: ContentRow) => ContentKey(c) == (page, section))
  }

  /**
   * The table after `pageContent.upsert` on the (page_name, section_name)
   * key. An existing row keeps its content when none is sent (an undefined
   * field is left alone by the update); creating a row without content
   * throws (None).
   */
  function UpsertContent(content: seq<ContentRow>, page: string, section: string, text: Option<string>,
                         isActive: Option<bool>): Option<seq<ContentRow>> {
    match ContentIndex(content, page, section)
    case Some(i) => Some(content[i := content[i].(content := text.GetOr(content[i].content),
                                                  isActive := ActiveFlag(isActive))])
    case None =>
      if text.None? then None
      else Some(content + [ContentRow(page, section, text.value, ActiveFlag(isActive))])
  }

  /**
   * The upsert fails exactly when the pair is new and no content is sent.
   * Otherwise the key is still unique and exactly one row has it: it holds
   * the sent content, or its old content when none is sent, and the sent
   * flag; every other row is unchanged.
   */
  lemma UpsertContentCorrect(content: seq<ContentRow>, page: string, section: string, text: Option<string>,
                             isActive: Option<bool>)
    requires UniqueBy(content, ContentKey)
    ensures UpsertContent(content, page, section, text, isActive).None? <==>
              ContentIndex(content, page, section).None? && text.None?
    ensures UpsertContent(content, page, section, text, isActive).Some? ==>
            var r := UpsertContent(content, page, section, text, isActive).value;
            var k := ContentIndex(r, page, section);
            && UniqueBy(r, ContentKey)
            && k.Some?
            && (text.Some? ==> r[k.value] == ContentRow(page, section, text.value, ActiveFlag(isActive)))
            && (text.None? ==>
                  r[k.value] == content[ContentIndex(content, page, section).value].(isActive := ActiveFlag(isActive)))
            && (forall j :: 0 <= j < |r| && j != k.value ==> ContentKey(r[j]) != (page, section))
            && |r| == |content| + (if ContentIndex(content, page, section).Some? then 0 else 1)
            && (forall j :: 0 <= j < |content| && ContentKey(content[j]) != (page, section) ==> r[j] == content[j])
  {
    match ContentIndex(content, page, section)
    case Some(i) =>
      var row := content[i].(content := text.GetOr(content[i].content), isActive := ActiveFlag(isActive));
      var r := UpsertContent(content, page, section, text, isActive).value;
      UpdateKeepsUnique(content, i, row, ContentKey);
      assert r == content[i := row];
      UniqueKeyAt(r, i);
    case None =>
      if text.Some? {
        var row := ContentRow(page, section, text.value, ActiveFlag(isActive));
        var r := UpsertContent(content, page, section, text, isActive).value;
        AppendKeepsUnique(content, row, ContentKey);
        assert r == content + [row];
        UniqueKeyAt(r, |content|);
      }
  }

  /** Under the unique key, the lookup finds the one row with that key. */
  lemma UniqueKeyAt(content: seq<ContentRow>, i: nat)
    requires UniqueBy(content, ContentKey) && i < |content|
    ensures ContentIndex(content, content[i].pageName, content[i].sectionName) == Some(i)
    ensures forall j :: 0 <= j < |content| && j != i ==> ContentKey(content[j]) != ContentKey(content[i])
  {
    var k := ContentIndex(content, content[i].pageName, content[i].sectionName).value;
    assert ContentKey(content[k]) == ContentKey(content[i]);
  }

  /** Saving the same section twice is the same as saving it once. */
  lemma UpsertContentIdempotent(content: seq<ContentRow>, page: string, section: string, text: Option<string>,
                                isActive: Option<bool>)
    requires UniqueBy(content, ContentKey)
    ensures var once := UpsertContent(content, page, section, text, isActive);
            once.Some? ==> UpsertContent(once.value, page, section, text, isActive) == once
  {
    UpsertContentCorrect(content, page, section, text, isActive);
    var once := UpsertContent(content, page, section, text, isActive);
    if once.Some? {
      var r := once.value;
      var k := ContentIndex(r, page, section).value;
      UniqueKeyAt(r, k);
      assert r[k := r[k].(content := text.GetOr(r[k].content), isActive := ActiveFlag(isActive))] == r;
    }
  }

  /** The reply: the saved row, or the 500 of a throwing query. */
  datatype ContentReply = ContentSaved(row: ContentRow) | ContentThrown

  /**
   * The handler. A body without a page or section name leaves the unique
   * key incomplete, so the query throws; so does creating a row without
   * content. A throw writes nothing.
   */
  method UpdatePageContent(db: Store, page: Option<string>, section: Option<string>, text: Option<string>,
                           isActive: Option<bool>)
    returns (reply: ContentReply)
    requires db.Valid()
    modifies db`content
    ensures db.Valid()
    ensures page.None? || section.None? ==> reply == ContentThrown && db.content == old(db.content)
    ensures page.Some? && section.Some? ==>
              match UpsertContent(old(db.content), page.value, section.value, text, isActive)
              case None => reply == ContentThrown && db.content == old(db.content)
              case Some(r) => db.content == r && reply.ContentSaved? && reply.row in r
                              && ContentKey(reply.row) == (page.value, section.value)
  {
    if page.None? || section.None? {
      return ContentThrown;
    }
    UpsertContentCorrect(db.content, page.value, section.value, text, isActive);
    var i := ContentIndex(db.content, page.value, section.value);
    if i.Some? {
      var saved := db.content[i.value].(content := text.GetOr(db.content[i.value].content),
                                        isActive := ActiveFlag(isActive));
      db.content := db.content[i.value := saved];
      UniqueKeyAt(db.content, i.value);
      reply := ContentSaved(saved);
    } else if text.None? {
      reply := ContentThrown;
    } else {
      var saved := ContentRow(page.value, section.value, text.value, ActiveFlag(isActive));
      db.content := db.content + [saved];
      UniqueKeyAt(db.content, |db.content| - 1);
      reply := ContentSaved(saved);
    }
  }

  /** Code-unit order on strings, a proper prefix first. */
  predicate StrLe(a: string, b: string)
    decreases |a|
  {
    if a == [] then true
    else if b == [] then false
    else if a[0] != b[0] then a[0] < b[0]
    else StrLe(a[1..], b[1..])
  }

  lemma {:induction false} StrLeReflexive(a: string)
    ensures StrLe(a, a)
    decreases |a|
  {
    if a != [] {
      StrLeReflexive(a[1..]);
    }
  }

  lemma {:induction false} StrLeTotal(a: string, b: string)
    ensures StrLe(a, b) || StrLe(b, a)
    decreases |a|
  {
    if a != [] && b != [] && a[0] == b[0] {
      StrLeTotal(a[1..], b[1..]);
    }
  }

  lemma {:induction false} StrLeAntisymmetric(a: string, b: string)
    requires StrLe(a, b) && StrLe(b, a)
    ensures a == b
    decreases |a|
  {
    if a != [] {
      StrLeAntisymmetric(a[1..], b[1..]);
      assert a == [a[0]] + a[1..] && b == [b[0]] + b[1..];
    }
  }

  lemma {:induction false} StrLeTransitive(a: string, b: string, c: string)
    requires StrLe(a, b) && StrLe(b, c)
    ensures StrLe(a, c)
    decreases |a|
  {
    if a != [] && a[0] == b[0] && b[0] == c[0] {
      StrLeTransitive(a[1..], b[1..], c[1..]);
    }
  }

  /** `orderBy: [{ page_name: 'asc' }, { section_name: 'asc' }]`. */
  predicate ContentLe(x: ContentRow, y: ContentRow) {
    (StrLe(x.pageName, y.pageName) && x.pageName != y.pageName)
    || (x.pageName == y.pageName && StrLe(x.sectionName, y.sectionName))
  }

  lemma ContentLeIsPreorder()
    ensures TotalPreorder(ContentLe)
  {
    forall x: ContentRow, y: ContentRow ensures ContentLe(x, y) || ContentLe(y, x) {
      StrLeTotal(x.pageName, y.pageName);
      StrLeTotal(x.sectionName, y.sectionName);
    }
    forall x: ContentRow, y: ContentRow, z: ContentRow | ContentLe(x, y) && ContentLe(y, z)
      ensures ContentLe(x, z)
    {
      if x.pageName == y.pageName && y.pageName == z.pageName {
        StrLeTransitive(x.sectionName, y.sectionName, z.sectionName);
      } else {
        StrLeReflexive(x.pageName);
        StrLeReflexive(y.pageName);
        StrLeTransitive(x.pageName, y.pageName, z.pageName);
        if x.pageName == z.pageName {
          StrLeAntisymmetric(x.pageName, y.pageName);
        }
      }
    }
  }

  /** `getAllContentAdmin`. */
  function AllContentAdmin(content: seq<ContentRow>): seq<ContentRow> {
    SortBy(content, ContentLe)
  }

  /** The admin list holds every row once, ordered by page and then by section. */
  lemma AllContentAdminCorrect(content: seq<ContentRow>)
    ensures var r := AllContentAdmin(content);
            && multiset(r) == multiset(content)
            && forall k :: 0 < k < |r| ==>
                 StrLe(r[k - 1].pageName, r[k].pageName)
                 && (r[k - 1].pageName == r[k].pageName ==> StrLe(r[k - 1].sectionName, r[k].sectionName))
  {
    ContentLeIsPreorder();
    SortByCorrect(content, ContentLe);
    var r := AllContentAdmin(content);
    forall k | 0 < k < |r| ensures StrLe(r[k - 1].pageName, r[k].pageName) {
      StrLeReflexive(r[k].pageName);
    }
  }
}
