/**
 * The compiled-in seed content: lucky days per month, the default settings,
 * the service catalogue and the two example portfolio items, each with the
 * data invariants the store relies on.
 */
module Seeds {
  import opened Wrappers
  import opened Entities
  import Text

  /** Strictly increasing day numbers, each a valid day of a month. */
  predicate ValidDayList(days: seq<int>) {
    && (forall i :: 0 <= i < |days| ==> 1 <= days[i] <= 31)
    && (forall i, j :: 0 <= i < j < |days| ==> days[i] < days[j])
  }

  /** A list whose neighbours increase, from a first day >= 1 to a last day <= 31, is a valid day list. */
  lemma {:induction false} StepwiseValid(days: seq<int>)
    requires days != [] && 1 <= days[0] && days[|days| - 1] <= 31
    requires forall i :: 0 <= i < |days| - 1 ==> days[i] < days[i + 1]
    ensures ValidDayList(days)
  {
    if |days| > 1 {
      var tail := days[1..];
      StepwiseValid(tail);
      assert forall i :: 1 <= i < |days| ==> days[i] == tail[i - 1];
    }
  }

  const Feb: seq<int> := [6, 7, 16, 17, 25, 26]
  const Mar: seq<int> := [7, 8, 17, 18, 27, 28]
  const Apr: seq<int> := [6, 7, 15, 16, 25, 26]
  const May: seq<int> := [5, 6, 15, 16, 25, 26]
  const Jun: seq<int> := [4, 5, 13, 14, 23, 24]
  const Jul: seq<int> := [3, 4, 13, 14, 22, 23]

  /** The month labels the calendar shows, the first being its initial month. */
  const FebLabel := "26년 2월"
  const MarLabel := "26년 3월"
  const AprLabel := "26년 4월"
  const MayLabel := "26년 5월"
  const JunLabel := "26년 6월"
  const JulLabel := "26년 7월"

  /** Lucky (auspicious moving) days, keyed by month label. */
  function LuckyDays(): (r: map<string, seq<int>>)
    ensures |r| == 6
    ensures r.Keys == {FebLabel, MarLabel, AprLabel, MayLabel, JunLabel, JulLabel}
    ensures forall month :: month in r ==> |r[month]| == 6 && ValidDayList(r[month])
  {
    StepwiseValid(Feb); StepwiseValid(Mar); StepwiseValid(Apr);
    StepwiseValid(May); StepwiseValid(Jun); StepwiseValid(Jul);
    map[FebLabel := Feb, MarLabel := Mar, AprLabel := Apr,
        MayLabel := May, JunLabel := Jun, JulLabel := Jul]
  }

  const JejuBranch := "제주시 : 제주특별자치도 제주시 연동 2315-3"
  const SeogwipoBranch := "서귀포시 : 제주특별자치도 서귀포시 서호호근로 86-6"

  /** Texts and links of the default settings. */
  const HeroTitle := "제주의 자연을 닮은 깨끗함, 공간의 품격을 깨우다"
  const HeroSubtitle := "단순한 청소를 넘어 공간 본연의 가치를 되찾아드리는 링크클린의\n독보적인 프리미엄 케어 솔루션입니다."
  const KakaoLink := "https://pf.kakao.com/_xfxdrxmM"
  const NaverTalkLink := "https://talk.naver.com/ct/wc92zf?frm=home"
  const InstagramLink := "https://instagram.com/linkcleaning"
  const LogoUrl := "https://api.iconify.design/solar:sparkles-bold-duotone.svg?color=%238e24aa"

  /** The default settings; its address lists the two branches. */
  function InitialSettings(): (r: SiteSettings)
    ensures Text.Split(r.address, Text.BranchSeparator) == [JejuBranch, SeogwipoBranch]
  {
    Text.SplitTwoBranches(JejuBranch, SeogwipoBranch);
    SiteSettings(
      siteName := "링크클린 (Link Clean)",
      heroTitle := HeroTitle,
      heroSubtitle := HeroSubtitle,
      phone := "064-763-4545",
      address := JejuBranch + " / " + SeogwipoBranch,
      kakaoLink := KakaoLink,
      naverTalkLink := NaverTalkLink,
      instagramLink := InstagramLink,
      primaryColor := "#E3F2FD",
      accentColor := "#8E24AA",
      logoUrl := LogoUrl)
  }

  /** The service catalogue: four services with distinct identifiers. */
  function InitialServices(): (r: seq<ServiceInfo>)
    ensures |r| == 4 && UniqueServiceIds(r)
    ensures forall i :: 0 <= i < |r| ==> r[i].subCategories != []
    ensures forall i, j :: 0 <= i < j < |r| ==> r[i].majorCategory != r[j].majorCategory
  {
    [
      ServiceInfo("m2", Professional, "전문청소",
        "공간의 목적에 따른 정밀 클리닝으로 최적의 주거/상업 환경을 조성합니다.",
        ["입주청소", "이사청소", "인테리어청소", "거주청소", "외벽&외창청소"]),
      ServiceInfo("m3", Special, "특수청소",
        "특수한 상황에서의 오염 및 폐기물 처리를 전문 장비 and 인력으로 안전하게 해결합니다.",
        ["준공청소", "화재청소", "쓰레기집청소", "유품&고독사청소", "폐기물처리"]),
      ServiceInfo("m5", Preventive, "예방시공",
        "공간의 오염을 방지하고 쾌적함을 오래 유지하기 위한 전문 시공 솔루션입니다.",
        ["줄눈시공", "새집증후군시공", "바닥왁스", "방역&해충소독"]),
      ServiceInfo("m4", Appliance, "가전청소",
        "분해 세척을 통해 보이지 않는 세균과 먼지를 제거하여 가전의 성능과 건강을 지킵니다.",
        ["에어컨청소", "냉장고청소", "쇼파&매트리스", "후드청소"])
    ]
  }

  /** True when the item's sub-category is listed by a service of the same major category. */
  predicate CategoryListed(item: PortfolioItem, services: seq<ServiceInfo>) {
    && item.category.Some?
    && item.majorCategory.Some?
    && exists k :: 0 <= k < |services|
         && services[k].majorCategory == item.majorCategory.value
         && item.category.value in services[k].subCategories
  }

  /** Texts and photographs of the two example case studies. */
  const NohyeongTitle := "제주시 노형동 신축 아파트 입주청소"
  const NohyeongDescription := "베란다 창틀과 주방 기름때 완벽 제거 및 살균 소독."
  const NohyeongBefore := "https://images.unsplash.com/photo-1584622781564-1d9876a13d00?auto=format&fit=crop&q=80&w=800"
  const NohyeongAfter := "https://images.unsplash.com/photo-1527515637462-cff94eecc1ac?auto=format&fit=crop&q=80&w=800"
  const YeondongTitle := "연동 대형 카페 외벽/외창 청소"
  const YeondongDescription := "염분 제거 및 고소 작업차를 이용한 전면 유리 세척."
  const YeondongBefore := "https://images.unsplash.com/photo-1613665813446-82a78c468a1d?auto=format&fit=crop&q=80&w=800"
  const YeondongAfter := "https://images.unsplash.com/photo-1497366216548-37526070297c?auto=format&fit=crop&q=80&w=800"

  /** The two example case studies. */
  function InitialPortfolio(): (r: seq<PortfolioItem>)
    ensures |r| == 2 && UniqueIds(r)
    ensures forall i :: 0 <= i < |r| ==> Presentable(r[i])
    ensures forall i :: 0 <= i < |r| ==> CategoryListed(r[i], InitialServices())
  {
    var services := InitialServices();
    assert "입주청소" in services[0].subCategories;
    assert "외벽&외창청소" in services[0].subCategories;
    [
      PortfolioItem(
        id := "p1",
        title := NohyeongTitle,
        description := NohyeongDescription,
        category := Some("입주청소"),
        majorCategory := Some(Professional),
        beforeImg := NohyeongBefore,
        afterImg := NohyeongAfter,
        date := "2024-03-15"),
      PortfolioItem(
        id := "p2",
        title := YeondongTitle,
        description := YeondongDescription,
        category := Some("외벽&외창청소"),
        majorCategory := Some(Professional),
        beforeImg := YeondongBefore,
        afterImg := YeondongAfter,
        date := "2024-03-20")
    ]
  }
}
