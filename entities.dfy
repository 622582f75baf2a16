/**
 * The records the content store holds: site settings, the service catalogue,
 * portfolio case studies and inquiries, plus the partial portfolio record a
 * form edits before it is committed.
 */
module Entities {
  import opened Wrappers

  /** The five major service categories. */
  datatype MajorCategory = LuckyDays | Professional | Special | Appliance | Preventive

  /** The singleton settings record. */
  datatype SiteSettings = SiteSettings(
    siteName: string,
    heroTitle: string,
    heroSubtitle: string,
    phone: string,
    address: string,
    kakaoLink: string,
    naverTalkLink: string,
    instagramLink: string,
    primaryColor: string,
    accentColor: string,
    logoUrl: string)

  /** One entry of the service catalogue. */
  datatype ServiceInfo = ServiceInfo(
    id: string,
    majorCategory: MajorCategory,
    title: string,
    description: string,
    subCategories: seq<string>)

  /**
   * A before/after case study. `category` and `majorCategory` are optional:
   * an item committed from a draft that lost them holds `undefined` there.
   */
  datatype PortfolioItem = PortfolioItem(
    id: string,
    title: string,
    description: string,
    category: Option<string>,
    majorCategory: Option<MajorCategory>,
    beforeImg: string,
    afterImg: string,
    date: string)

  /** A contact-form record: the four fields the form collects. */
  datatype Inquiry = Inquiry(name: string, phone: string, serviceType: string, message: string)

  /** A `Partial<PortfolioItem>` as the portfolio forms hold it: every field may be missing. */
  datatype Draft = Draft(
    title: Option<string>,
    description: Option<string>,
    category: Option<string>,
    majorCategory: Option<MajorCategory>,
    beforeImg: Option<string>,
    afterImg: Option<string>)

  /** JavaScript falsiness of an optional string: missing or empty. */
  predicate Falsy(s: Option<string>) {
    s.None? || s.value == ""
  }

  /** `s || ''` on an optional string. */
  function OrEmpty(s: Option<string>): (r: string)
    ensures Falsy(s) ==> r == ""
    ensures !Falsy(s) ==> r == s.value
  {
    if s.Some? then s.value else ""
  }

  /** True when the item carries a title and both images, as committing a draft demands. */
  predicate Presentable(item: PortfolioItem) {
    item.title != "" && item.beforeImg != "" && item.afterImg != ""
  }

  /** True when no two items share an identifier. */
  predicate UniqueIds(items: seq<PortfolioItem>) {
    forall i, j :: 0 <= i < j < |items| ==> items[i].id != items[j].id
  }

  /** True when no two services share an identifier. */
  predicate UniqueServiceIds(services: seq<ServiceInfo>) {
    forall i, j :: 0 <= i < j < |services| ==> services[i].id != services[j].id
  }

  /** The identifiers of a portfolio, in order. */
  function Ids(items: seq<PortfolioItem>): (r: seq<string>)
    ensures |r| == |items|
    ensures forall i :: 0 <= i < |items| ==> r[i] == items[i].id
  {
    if items == [] then [] else [items[0].id] + Ids(items[1..])
  }
}
