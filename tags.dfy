/**
 * The showcase tag taxonomy: the closed set of tag keys (the `TagType`
 * union), the `Tags` record literal that gives each key its label,
 * description and colour, and `TagList`, the keys in the record's order.
 * Labels and descriptions are the default strings handed to the
 * translation facility, kept as opaque text together with the message id.
 */
module Tags {
  import opened Wrappers

  /** The twelve tag keys. */
  datatype TagType =
    | Favorite | V1 | V2 | OpenSource | Product | AdminUI
    | FrontUI | Library | Micro | CloudNative | Tool | AI

  /** What a tag badge shows. */
  datatype Tag = Tag(tagLabel: string, descriptionId: string, description: string, color: string)

  /** The string spelling of each key, as written in the source. */
  function Key(t: TagType): string {
    match t
    case Favorite => "favorite"
    case V1 => "v1"
    case V2 => "v2"
    case OpenSource => "opensource"
    case Product => "product"
    case AdminUI => "adminui"
    case FrontUI => "frontui"
    case Library => "library"
    case Micro => "micro"
    case CloudNative => "cloudnative"
    case Tool => "tool"
    case AI => "ai"
  }

  /** Reads a key back from its spelling; any other string is not a tag. */
  function ParseTag(s: string): (r: Option<TagType>)
    ensures r.Some? ==> Key(r.value) == s
    ensures forall t :: Key(t) == s ==> r == Some(t)
  {
    if s == "favorite" then Some(Favorite)
    else if s == "v1" then Some(V1)
    else if s == "v2" then Some(V2)
    else if s == "opensource" then Some(OpenSource)
    else if s == "product" then Some(Product)
    else if s == "adminui" then Some(AdminUI)
    else if s == "frontui" then Some(FrontUI)
    else if s == "library" then Some(Library)
    else if s == "micro" then Some(Micro)
    else if s == "cloudnative" then Some(CloudNative)
    else if s == "tool" then Some(Tool)
    else if s == "ai" then Some(AI)
    else None
  }

  /** The `Tags` record literal, entry by entry in source order. */
  const TagTable: seq<(string, Tag)> := [
    ("favorite", Tag("Favorite", "showcase.tag.favorite.description",
      "我们喜欢并推荐给大家的案例，感兴趣可以瞧瞧。", "#e9669e")),
    ("v1", Tag("V1", "showcase.tag.v1.description",
      "该案例使用GoFrame V1版本。", "#BFDADC")),
    ("v2", Tag("V2", "showcase.tag.v2.description",
      "该案例使用GoFrame V2版本。", "#D4C5F9")),
    ("opensource", Tag("OpenSource", "showcase.tag.opensource.description",
      "开源项目案例，通常是开源站点或组件，带有参考的源码案例。", "#39ca30")),
    ("product", Tag("Product", "showcase.tag.product.description",
      "带有商业授权案例，该案例可能同时具有源码和商业授权。", "#dfd545")),
    ("frontui", Tag("FrontUI", "showcase.tag.frontui.description",
      "带有前台UI的使用案例。", "#0E8A16")),
    ("adminui", Tag("AdminUI", "showcase.tag.adminui.description",
      "带有管理后台UI的使用案例。", "#14cfc3")),
    ("library", Tag("Library", "showcase.tag.library.description",
      "Go源码组件，供import使用。", "#1D76DB")),
    ("micro", Tag("MicroService", "showcase.tag.micro.description",
      "该案例支持微服务开发架构。", "#E99695")),
    ("cloudnative", Tag("CloudNative", "showcase.tag.cloudnative.description",
      "该案例支持云原生开发架构。", "#C5DEF5")),
    ("tool", Tag("Tool", "showcase.tag.tool.description",
      "系统或开发工具类的案例。", "#000000")),
    ("ai", Tag("AI", "showcase.tag.ai.description",
      "该案例与AI技术相关。", "#B60205"))
  ]

  /** Property lookup in a record literal: the entry with the given key.
      It agrees with JavaScript on tables whose keys are distinct, as
      `TagTable`'s are (`TagTableIsClosed`). */
  function Lookup(table: seq<(string, Tag)>, key: string): (r: Option<Tag>)
    ensures r.Some? ==> (key, r.value) in table
    ensures r.None? ==> forall i :: 0 <= i < |table| ==> table[i].0 != key
  {
    if table == [] then None
    else if table[0].0 == key then Some(table[0].1)
    else Lookup(table[1..], key)
  }

  /** The record's keys, in order (`Object.keys`), for a table whose keys
      are distinct, as `TagTable`'s are (`TagTableIsClosed`). */
  function Keys(table: seq<(string, Tag)>): (r: seq<string>)
    ensures |r| == |table|
    ensures forall i :: 0 <= i < |table| ==> r[i] == table[i].0
  {
    if table == [] then [] else [table[0].0] + Keys(table[1..])
  }

  /** `TagList`: the record's keys read as tag keys. */
  const TagList: seq<TagType> :=
    [Favorite, V1, V2, OpenSource, Product, FrontUI, AdminUI, Library, Micro, CloudNative, Tool, AI]

  /** Distinct tag keys are spelled differently. */
  lemma KeyInjective(t: TagType, u: TagType)
    requires Key(t) == Key(u)
    ensures t == u
  {
    assert ParseTag(Key(t)) == Some(t);
  }

  /** `TagList` is `Object.keys(Tags)` read as tag keys. */
  lemma TagListIsObjectKeys()
    ensures |TagList| == |Keys(TagTable)| == 12
    ensures forall i :: 0 <= i < |TagList| ==> Key(TagList[i]) == Keys(TagTable)[i]
  {
    KeysOfTagTable();
  }

  lemma KeysOfTagTable()
    ensures |TagList| == |TagTable| == 12
    ensures forall i :: 0 <= i < |TagList| ==> Key(TagList[i]) == TagTable[i].0
  {
    forall i | 0 <= i < |TagList| ensures Key(TagList[i]) == TagTable[i].0 {
      if i == 0 { assert TagTable[0].0 == "favorite"; }
      else if i == 1 { assert TagTable[1].0 == "v1"; }
      else if i == 2 { assert TagTable[2].0 == "v2"; }
      else if i == 3 { assert TagTable[3].0 == "opensource"; }
      else if i == 4 { assert TagTable[4].0 == "product"; }
      else if i == 5 { assert TagTable[5].0 == "frontui"; }
      else if i == 6 { assert TagTable[6].0 == "adminui"; }
      else if i == 7 { assert TagTable[7].0 == "library"; }
      else if i == 8 { assert TagTable[8].0 == "micro"; }
      else if i == 9 { assert TagTable[9].0 == "cloudnative"; }
      else if i == 10 { assert TagTable[10].0 == "tool"; }
      else { assert TagTable[11].0 == "ai"; }
    }
  }

  /** `TagList` enumerates every tag key exactly once. */
  lemma TagListEnumeratesTagTypes()
    ensures forall t: TagType :: t in TagList
    ensures forall i, j :: 0 <= i < j < |TagList| ==> TagList[i] != TagList[j]
  {
    forall t: TagType ensures t in TagList {
      match t
      case Favorite => assert TagList[0] == t;
      case V1 => assert TagList[1] == t;
      case V2 => assert TagList[2] == t;
      case OpenSource => assert TagList[3] == t;
      case Product => assert TagList[4] == t;
      case FrontUI => assert TagList[5] == t;
      case AdminUI => assert TagList[6] == t;
      case Library => assert TagList[7] == t;
      case Micro => assert TagList[8] == t;
      case CloudNative => assert TagList[9] == t;
      case Tool => assert TagList[10] == t;
      case AI => assert TagList[11] == t;
    }
  }

  /** The record has an entry for every tag key. */
  lemma TagTableIsTotal()
    ensures forall t: TagType :: Lookup(TagTable, Key(t)).Some?
  {
    KeysOfTagTable();
    TagListEnumeratesTagTypes();
    forall t: TagType ensures Lookup(TagTable, Key(t)).Some? {
      assert t in TagList;
      var i :| 0 <= i < |TagList| && TagList[i] == t;
      assert TagTable[i].0 == Key(t);
    }
  }

  /** The record has no entry other than the tag keys, and no key twice. */
  lemma TagTableIsClosed()
    ensures forall i :: 0 <= i < |TagTable| ==> ParseTag(TagTable[i].0).Some?
    ensures forall i, j :: 0 <= i < j < |TagTable| ==> TagTable[i].0 != TagTable[j].0
  {
    KeysOfTagTable();
    TagListEnumeratesTagTypes();
    forall i | 0 <= i < |TagTable| ensures ParseTag(TagTable[i].0).Some? {
      assert TagTable[i].0 == Key(TagList[i]);
    }
    forall i, j | 0 <= i < j < |TagTable| ensures TagTable[i].0 != TagTable[j].0 {
      if TagTable[i].0 == TagTable[j].0 {
        KeyInjective(TagList[i], TagList[j]);
      }
    }
  }

  /** `Tags[t]` for a tag key: always defined. */
  function Describe(t: TagType): (r: Tag)
    ensures (Key(t), r) in TagTable
  {
    TagTableIsTotal();
    Lookup(TagTable, Key(t)).value
  }
}
