/**
 * The browser-local content store: four collections loaded once from
 * key/value storage (or from the seed content when nothing usable is
 * stored), and rewritten to storage, all four together, after every change.
 */
module Store {
  import opened Wrappers
  import opened Entities
  import Seeds

  const SettingsKey := "lc_settings"
  const ServicesKey := "lc_services"
  const PortfolioKey := "lc_portfolio"
  const InquiriesKey := "lc_inquiries"

  /** A collection as encoded into storage. */
  datatype Doc =
    | SettingsDoc(settings: SiteSettings)
    | ServicesDoc(services: seq<ServiceInfo>)
    | PortfolioDoc(portfolio: seq<PortfolioItem>)
    | InquiriesDoc(inquiries: seq<Inquiry>)

  /** The text held under a storage key. */
  datatype Entry =
    | Blank          // the empty string
    | Json(doc: Doc) // the encoding of a collection
    | Malformed      // text that `JSON.parse` rejects

  /** Why loading failed: the stored text cannot be decoded, or decodes to another kind of collection. */
  datatype LoadError = Unparsable(key: string) | WrongShape(key: string)

  /** The four collections the store holds at one moment. */
  datatype Snapshot = Snapshot(
    settings: SiteSettings,
    services: seq<ServiceInfo>,
    portfolio: seq<PortfolioItem>,
    inquiries: seq<Inquiry>)

  /** The compiled-in defaults of the three seeded collections. */
  datatype SeedContent = SeedContent(
    settings: SiteSettings,
    services: seq<ServiceInfo>,
    portfolio: seq<PortfolioItem>)

  /** The application's own seed content. */
  function Compiled(): (r: SeedContent) {
    SeedContent(Seeds.InitialSettings(), Seeds.InitialServices(), Seeds.InitialPortfolio())
  }

  /** What first run shows: the seed content and no inquiries. */
  function Defaults(seed: SeedContent): (r: Snapshot) {
    Snapshot(seed.settings, seed.services, seed.portfolio, [])
  }

  /** True when `getItem(key)` yields something truthy: present and not the empty string. */
  predicate Usable(storage: map<string, Entry>, key: string) {
    key in storage && !storage[key].Blank?
  }

  /** `saved ? JSON.parse(saved) : fallback` for one key. */
  function Decode(storage: map<string, Entry>, key: string, fallback: Doc): (r: Result<Doc, LoadError>)
    ensures !Usable(storage, key) ==> r == Success(fallback)
    ensures Usable(storage, key) && storage[key].Json? ==> r == Success(storage[key].doc)
    ensures key in storage && storage[key].Malformed? ==> r == Failure(Unparsable(key))
  {
    if !Usable(storage, key) then Success(fallback)
    else match storage[key]
      case Json(doc) => Success(doc)
      case _ => Failure(Unparsable(key))
  }

  /** The settings initialiser: the stored settings when the key holds them, the default when nothing usable is stored. */
  function LoadSettings(storage: map<string, Entry>, seed: SeedContent): (r: Result<SiteSettings, LoadError>)
    ensures !Usable(storage, SettingsKey) ==> r == Success(seed.settings)
    ensures Usable(storage, SettingsKey) && storage[SettingsKey].Json? && storage[SettingsKey].doc.SettingsDoc? ==>
      r == Success(storage[SettingsKey].doc.settings)
    ensures Usable(storage, SettingsKey) && !(storage[SettingsKey].Json? && storage[SettingsKey].doc.SettingsDoc?) ==> r.Failure?
  {
    match Decode(storage, SettingsKey, SettingsDoc(seed.settings))
    case Success(SettingsDoc(x)) => Success(x)
    case Success(_) => Failure(WrongShape(SettingsKey))
    case Failure(e) => Failure(e)
  }

  /** The services initialiser: the stored services when the key holds them, the default when nothing usable is stored. */
  function LoadServices(storage: map<string, Entry>, seed: SeedContent): (r: Result<seq<ServiceInfo>, LoadError>)
    ensures !Usable(storage, ServicesKey) ==> r == Success(seed.services)
    ensures Usable(storage, ServicesKey) && storage[ServicesKey].Json? && storage[ServicesKey].doc.ServicesDoc? ==>
      r == Success(storage[ServicesKey].doc.services)
    ensures Usable(storage, ServicesKey) && !(storage[ServicesKey].Json? && storage[ServicesKey].doc.ServicesDoc?) ==> r.Failure?
  {
    match Decode(storage, ServicesKey, ServicesDoc(seed.services))
    case Success(ServicesDoc(x)) => Success(x)
    case Success(_) => Failure(WrongShape(ServicesKey))
    case Failure(e) => Failure(e)
  }

  /** The portfolio items initialiser: the stored portfolio items when the key holds them, the default when nothing usable is stored. */
  function LoadPortfolio(storage: map<string, Entry>, seed: SeedContent): (r: Result<seq<PortfolioItem>, LoadError>)
    ensures !Usable(storage, PortfolioKey) ==> r == Success(seed.portfolio)
    ensures Usable(storage, PortfolioKey) && storage[PortfolioKey].Json? && storage[PortfolioKey].doc.PortfolioDoc? ==>
      r == Success(storage[PortfolioKey].doc.portfolio)
    ensures Usable(storage, PortfolioKey) && !(storage[PortfolioKey].Json? && storage[PortfolioKey].doc.PortfolioDoc?) ==> r.Failure?
  {
    match Decode(storage, PortfolioKey, PortfolioDoc(seed.portfolio))
    case Success(PortfolioDoc(x)) => Success(x)
    case Success(_) => Failure(WrongShape(PortfolioKey))
    case Failure(e) => Failure(e)
  }

  /** The inquiries initialiser: the stored inquiries when the key holds them, the default when nothing usable is stored. */
  function LoadInquiries(storage: map<string, Entry>): (r: Result<seq<Inquiry>, LoadError>)
    ensures !Usable(storage, InquiriesKey) ==> r == Success([])
    ensures Usable(storage, InquiriesKey) && storage[InquiriesKey].Json? && storage[InquiriesKey].doc.InquiriesDoc? ==>
      r == Success(storage[InquiriesKey].doc.inquiries)
    ensures Usable(storage, InquiriesKey) && !(storage[InquiriesKey].Json? && storage[InquiriesKey].doc.InquiriesDoc?) ==> r.Failure?
  {
    match Decode(storage, InquiriesKey, InquiriesDoc([]))
    case Success(InquiriesDoc(x)) => Success(x)
    case Success(_) => Failure(WrongShape(InquiriesKey))
    case Failure(e) => Failure(e)
  }

  /** The four initialisers together; mounting fails when any of them does. */
  function Load(storage: map<string, Entry>, seed: SeedContent): (r: Result<Snapshot, LoadError>)
    ensures r.Success? <==>
      LoadSettings(storage, seed).Success? && LoadServices(storage, seed).Success? &&
      LoadPortfolio(storage, seed).Success? && LoadInquiries(storage).Success?
    ensures r.Success? ==>
      r.value.settings == LoadSettings(storage, seed).value && r.value.services == LoadServices(storage, seed).value &&
      r.value.portfolio == LoadPortfolio(storage, seed).value && r.value.inquiries == LoadInquiries(storage).value
  {
    var s :- LoadSettings(storage, seed);
    var v :- LoadServices(storage, seed);
    var p :- LoadPortfolio(storage, seed);
    var q :- LoadInquiries(storage);
    Success(Snapshot(s, v, p, q))
  }

  /** The write-through effect: all four keys rewritten with the whole collections, other keys untouched. */
  function Persist(storage: map<string, Entry>, snap: Snapshot): (r: map<string, Entry>)
    ensures Mirrors(r, snap)
    ensures Usable(r, SettingsKey) && Usable(r, ServicesKey) && Usable(r, PortfolioKey) && Usable(r, InquiriesKey)
    ensures forall key :: key !in {SettingsKey, ServicesKey, PortfolioKey, InquiriesKey} ==>
      (key in r <==> key in storage) && (key in storage ==> r[key] == storage[key])
  {
    storage[SettingsKey := Json(SettingsDoc(snap.settings))]
           [ServicesKey := Json(ServicesDoc(snap.services))]
           [PortfolioKey := Json(PortfolioDoc(snap.portfolio))]
           [InquiriesKey := Json(InquiriesDoc(snap.inquiries))]
  }

  /** True when storage holds exactly the current value of each collection under its key. */
  predicate Mirrors(storage: map<string, Entry>, snap: Snapshot) {
    && SettingsKey in storage && storage[SettingsKey] == Json(SettingsDoc(snap.settings))
    && ServicesKey in storage && storage[ServicesKey] == Json(ServicesDoc(snap.services))
    && PortfolioKey in storage && storage[PortfolioKey] == Json(PortfolioDoc(snap.portfolio))
    && InquiriesKey in storage && storage[InquiriesKey] == Json(InquiriesDoc(snap.inquiries))
  }

  /** Reloading from storage that mirrors a snapshot gives that snapshot back. */
  lemma ReloadRoundTrip(storage: map<string, Entry>, snap: Snapshot, seed: SeedContent)
    requires Mirrors(storage, snap)
    ensures Load(storage, seed) == Success(snap)
  {
  }

  /** A reload after any write-through gives back what was written. */
  lemma PersistThenLoad(storage: map<string, Entry>, snap: Snapshot, seed: SeedContent)
    ensures Load(Persist(storage, snap), seed) == Success(snap)
  {
    ReloadRoundTrip(Persist(storage, snap), snap, seed);
  }

  /** Rewriting storage that already mirrors the state changes nothing. */
  lemma PersistIdempotent(storage: map<string, Entry>, snap: Snapshot)
    requires Mirrors(storage, snap)
    ensures Persist(storage, snap) == storage
  {
    var r := Persist(storage, snap);
    assert r.Keys == storage.Keys;
    forall key | key in r ensures r[key] == storage[key] {
    }
  }

  /** First run, with none of the four keys usable, starts from the seed content. */
  lemma FirstRunLoadsDefaults(storage: map<string, Entry>, seed: SeedContent)
    requires !Usable(storage, SettingsKey) && !Usable(storage, ServicesKey)
    requires !Usable(storage, PortfolioKey) && !Usable(storage, InquiriesKey)
    ensures Load(storage, seed) == Success(Defaults(seed))
  {
  }

  /**
   * The store as `useStore` keeps it: the four collections and the
   * browser storage the effect keeps in step with them.
   */
  class ContentStore {
    var settings: SiteSettings
    var services: seq<ServiceInfo>
    var portfolio: seq<PortfolioItem>
    var inquiries: seq<Inquiry>
    var storage: map<string, Entry>

    /** The collections as one value. */
    function Current(): (snap: Snapshot)
      reads this
      ensures snap.settings == settings && snap.services == services
      ensures snap.portfolio == portfolio && snap.inquiries == inquiries
    {
      Snapshot(settings, services, portfolio, inquiries)
    }

    /** After every change has been written through, storage mirrors the collections. */
    ghost predicate Valid()
      reads this
    {
      Mirrors(storage, Current())
    }

    /**
     * Mounting the store: each collection loaded from `saved` or its
     * default, then the first run of the effect writes all four back.
     * A stored value that cannot be decoded makes mounting fail in the
     * application, so loading must succeed.
     */
    constructor (saved: map<string, Entry>)
      requires Load(saved, Compiled()).Success?
      ensures Current() == Load(saved, Compiled()).value
      ensures storage == Persist(saved, Current())
      ensures Valid()
    {
      var snap := Load(saved, Compiled()).value;
      settings := snap.settings;
      services := snap.services;
      portfolio := snap.portfolio;
      inquiries := snap.inquiries;
      storage := Persist(saved, snap);
    }

    /** The effect that follows every state change. */
    method WriteThrough()
      modifies this
      ensures Current() == old(Current())
      ensures storage == Persist(old(storage), Current())
      ensures Valid()
    {
      storage := Persist(storage, Current());
    }

    /** `setSettings`: replace the settings and write through. */
    method SetSettings(s: SiteSettings)
      modifies this
      ensures Current() == old(Current()).(settings := s)
      ensures storage == Persist(old(storage), Current())
      ensures Valid()
    {
      settings := s;
      WriteThrough();
    }

    /** `setServices`: replace the service catalogue and write through. */
    method SetServices(v: seq<ServiceInfo>)
      modifies this
      ensures Current() == old(Current()).(services := v)
      ensures storage == Persist(old(storage), Current())
      ensures Valid()
    {
      services := v;
      WriteThrough();
    }

    /** `setPortfolio`: replace the portfolio and write through. */
    method SetPortfolio(p: seq<PortfolioItem>)
      modifies this
      ensures Current() == old(Current()).(portfolio := p)
      ensures storage == Persist(old(storage), Current())
      ensures Valid()
    {
      portfolio := p;
      WriteThrough();
    }

    /** `setInquiries`: replace the inquiries and write through. */
    method SetInquiries(q: seq<Inquiry>)
      modifies this
      ensures Current() == old(Current()).(inquiries := q)
      ensures storage == Persist(old(storage), Current())
      ensures Valid()
    {
      inquiries := q;
      WriteThrough();
    }
  }
}
