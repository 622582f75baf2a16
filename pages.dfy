/**
 * The three components that change the store or a draft: the public
 * portfolio page, the admin dashboard's portfolio tab and the contact form.
 * Asynchronous results (a file read, the relay's response) and clock
 * readings arrive as parameters.
 */
module Pages {
  import opened Wrappers
  import opened Entities
  import opened Portfolio
  import opened Store
  import Seeds

  const GuestIncomplete := "모든 항목과 사진 2장을 등록해주세요."
  const GuestRegistered := "소중한 시공 사례/후기가 등록되었습니다!"
  const GuestReadError := "이미지 로딩 중 오류가 발생했습니다."
  const AdminIncomplete := "모든 정보와 이미지를 입력해주세요."
  const AdminReadError := "이미지 로딩 오류"
  const RelayRefused := "오류가 발생했습니다."
  const RelayUnreachable := "전송 중 연결 오류가 발생했습니다."

  /** The public portfolio page with its guest submission form. */
  class PortfolioPage {
    const store: ContentStore
    var draft: Draft
    var showForm: bool

    ghost predicate Valid()
      reads this, store
    {
      store.Valid()
    }

    constructor (store: ContentStore)
      requires store.Valid()
      ensures this.store == store && draft == InitialDraft() && !showForm
      ensures Valid()
    {
      this.store := store;
      draft := InitialDraft();
      showForm := false;
    }

    /** The button that opens or cancels the form. */
    method ToggleForm()
      modifies this
      ensures showForm == !old(showForm) && draft == old(draft)
    {
      showForm := !showForm;
    }

    /** Typing into the title, sub-category or description input. */
    method Edit(field: TextField, value: string)
      modifies this
      ensures draft == WithText(old(draft), field, value) && showForm == old(showForm)
    {
      draft := WithText(draft, field, value);
    }

    /** `handleFileChange`: a picked file's data URL goes into one image field; a failed read only alerts. */
    method SelectImage(side: Side, pick: ImagePick) returns (notice: Option<string>)
      modifies this
      ensures draft == WithImage(old(draft), side, pick) && showForm == old(showForm)
      ensures notice == (if pick.ReadFailed? then Some(GuestReadError) else None)
    {
      draft := WithImage(draft, side, pick);
      notice := if pick.ReadFailed? then Some(GuestReadError) else None;
    }

    /**
     * `handleGuestSubmit`: a complete draft becomes a guest review at the
     * front of the portfolio, the form closes and the draft is reset; an
     * incomplete one only alerts.
     */
    method Submit(now: string, today: string) returns (notice: string)
      requires Valid()
      modifies this, store
      ensures Valid()
      ensures store.Current() == old(store.Current()).(portfolio := Add(old(store.portfolio), Guest, old(draft), now, today))
      ensures store.storage == Persist(old(store.storage), store.Current())
      ensures Committable(old(draft)) ==> draft == ResetDraft() && !showForm && notice == GuestRegistered
      ensures !Committable(old(draft)) ==>
        draft == old(draft) && showForm == old(showForm) && notice == GuestIncomplete
    {
      if !Committable(draft) {
        PersistIdempotent(store.storage, store.Current());
        notice := GuestIncomplete;
        return;
      }
      store.SetPortfolio(Add(store.portfolio, Guest, draft, now, today));
      showForm := false;
      draft := ResetDraft();
      notice := GuestRegistered;
    }
  }

  /** The admin dashboard's portfolio tab. */
  class AdminPage {
    const store: ContentStore
    var draft: Draft

    ghost predicate Valid()
      reads this, store
    {
      store.Valid()
    }

    constructor (store: ContentStore)
      requires store.Valid()
      ensures this.store == store && draft == InitialDraft()
      ensures Valid()
    {
      this.store := store;
      draft := InitialDraft();
    }

    /** Typing into the title or description input (the tab has no sub-category input). */
    method Edit(field: TextField, value: string)
      requires field != Category
      modifies this
      ensures draft == WithText(old(draft), field, value)
    {
      draft := WithText(draft, field, value);
    }

    /** `handleFileChange` of the dashboard. */
    method SelectImage(side: Side, pick: ImagePick) returns (notice: Option<string>)
      modifies this
      ensures draft == WithImage(old(draft), side, pick)
      ensures notice == (if pick.ReadFailed? then Some(AdminReadError) else None)
    {
      draft := WithImage(draft, side, pick);
      notice := if pick.ReadFailed? then Some(AdminReadError) else None;
    }

    /** `addPortfolio`: a complete draft goes to the front of the portfolio as it is, and the draft is reset. */
    method AddPortfolio(now: string, today: string) returns (notice: Option<string>)
      requires Valid()
      modifies this, store
      ensures Valid()
      ensures store.Current() == old(store.Current()).(portfolio := Add(old(store.portfolio), Admin, old(draft), now, today))
      ensures store.storage == Persist(old(store.storage), store.Current())
      ensures Committable(old(draft)) ==> draft == ResetDraft() && notice == None
      ensures !Committable(old(draft)) ==> draft == old(draft) && notice == Some(AdminIncomplete)
    {
      if !Committable(draft) {
        PersistIdempotent(store.storage, store.Current());
        notice := Some(AdminIncomplete);
        return;
      }
      store.SetPortfolio(Add(store.portfolio, Admin, draft, now, today));
      draft := ResetDraft();
      notice := None;
    }

    /** `deletePortfolio`: every item with the identifier leaves the portfolio. */
    method DeletePortfolio(id: string)
      requires Valid()
      modifies store
      ensures Valid()
      ensures store.Current() == old(store.Current()).(portfolio := Remove(old(store.portfolio), id))
      ensures store.storage == Persist(old(store.storage), store.Current())
    {
      store.SetPortfolio(Remove(store.portfolio, id));
    }
  }

  /** How the form relay answered a submission. */
  datatype RelayOutcome =
    | Accepted        // an HTTP-OK-class response
    | Refused         // any other status
    | Unreachable     // the request itself failed

  /** The inputs of the contact form. */
  datatype ContactField = Name | Phone | ServiceType | Message

  /** The contact form as it starts and as it is reset. */
  function BlankInquiry(): (form: Inquiry)
    ensures form.name == form.phone == form.message == ""
    ensures form.serviceType in Seeds.InitialServices()[0].subCategories
  {
    Inquiry("", "", "입주청소", "")
  }

  /** The contact page's form. It is handed the store's inquiries but never changes them. */
  class ContactPage {
    const store: ContentStore
    var formData: Inquiry
    var submitted: bool

    constructor (store: ContentStore)
      ensures this.store == store && formData == BlankInquiry() && !submitted
    {
      this.store := store;
      formData := BlankInquiry();
      submitted := false;
    }

    /** Typing into one input of the form. */
    method Edit(field: ContactField, value: string)
      modifies this
      ensures submitted == old(submitted)
      ensures formData == match field
        case Name => old(formData).(name := value)
        case Phone => old(formData).(phone := value)
        case ServiceType => old(formData).(serviceType := value)
        case Message => old(formData).(message := value)
    {
      formData := match field
        case Name => formData.(name := value)
        case Phone => formData.(phone := value)
        case ServiceType => formData.(serviceType := value)
        case Message => formData.(message := value);
    }

    /**
     * `handleSubmit`, after the relay has answered: the form is cleared and
     * marked as sent only on acceptance, otherwise kept with an alert; the
     * store, inquiries included, is left as it was.
     */
    method Submit(outcome: RelayOutcome) returns (notice: Option<string>)
      modifies this
      ensures store.Current() == old(store.Current()) && store.storage == old(store.storage)
      ensures outcome == Accepted ==> formData == BlankInquiry() && submitted && notice == None
      ensures outcome != Accepted ==> formData == old(formData) && submitted == old(submitted)
      ensures outcome == Refused ==> notice == Some(RelayRefused)
      ensures outcome == Unreachable ==> notice == Some(RelayUnreachable)
    {
      match outcome
      case Accepted =>
        submitted := true;
        formData := BlankInquiry();
        notice := None;
      case Refused =>
        notice := Some(RelayRefused);
      case Unreachable =>
        notice := Some(RelayUnreachable);
    }

    /** The "write another" button shown after a successful submission. */
    method StartOver()
      modifies this
      ensures !submitted && formData == old(formData)
    {
      submitted := false;
    }
  }
}
