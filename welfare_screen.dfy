/**
 * The welfare screen's search box: `filteredServices` keeps the services whose
 * title, description or category includes the query, over the screen's sample
 * list of four services.
 */
module WelfareScreen {
  import opened JsStrings
  import opened Seqs

  /** One entry of the screen's list. */
  datatype Service = Service(id: string, title: string, description: string,
                             eligibility: string, amount: string, category: string)

  const BasicPension := Service("1", "기초연금", "65세 이상 어르신의 생활 안정을 위한 기초연금 지원",
                                "만 65세 이상, 소득인정액 하위 70%", "월 최대 300,000원", "금융지원")

  const JobsTitle := "노인 일자리 지원"
  const JobsDescription := "노인의 사회 참여와 소득 보충을 위한 일자리 제공"
  const SeniorJobs := Service("2", JobsTitle, JobsDescription,
                              "만 65세 이상 기초연금 수급자", "월 최대 270,000원", "일자리")

  const DiscountTitle := "경로우대 제도"
  const DiscountDescription := "65세 이상 어르신 대상 교통, 문화시설 등 이용 요금 할인"
  const SeniorDiscount := Service("3", DiscountTitle, DiscountDescription,
                                  "만 65세 이상", "시설별 상이", "생활지원")

  const FluShotTitle := "무료 독감 예방접종"
  const FluShotDescription := "고령자 대상 무료 독감 예방접종 지원"
  const FluShot := Service("4", FluShotTitle, FluShotDescription,
                           "만 65세 이상", "전액 지원", "의료지원")

  /** The list the screen loads. */
  const SampleServices := [BasicPension, SeniorJobs, SeniorDiscount, FluShot]

  /** The search test on one service; the eligibility and amount texts are not searched. */
  predicate Matches(s: Service, query: string)
  {
    Contains(s.title, query) || Contains(s.description, query) || Contains(s.category, query)
  }

  function Keeps(query: string): Service -> bool
  {
    s => Matches(s, query)
  }

  /** `filteredServices`: the services matching the query, in list order. */
  function FilteredServices(services: seq<Service>, query: string): (r: seq<Service>)
    ensures |r| <= |services|
    ensures forall s :: s in r <==> s in services && Matches(s, query)
    ensures forall i :: 0 <= i < |services| ==>
              multiset(r)[services[i]] == if Matches(services[i], query) then multiset(services)[services[i]] else 0
  {
    Filter(Keeps(query), services)
  }

  /** The shown list is the loaded list with some services left out, order kept. */
  lemma FilteredIsSubsequence(services: seq<Service>, query: string)
    ensures IsSubsequence(FilteredServices(services, query), services)
  {
    FilterIsSubsequence(Keeps(query), services);
  }

  /** The empty query, which the clear button sets, shows every service. */
  lemma EmptyQueryKeepsAll(services: seq<Service>)
    ensures FilteredServices(services, "") == services
  {
    forall i | 0 <= i < |services| ensures Keeps("")(services[i]) {
      ContainsEmpty(services[i].title);
    }
    FilterKeepsAll(Keeps(""), services);
  }

  /** Searching the shown list again with the same query shows the same list. */
  lemma FilterTwice(services: seq<Service>, query: string)
    ensures FilteredServices(FilteredServices(services, query), query) == FilteredServices(services, query)
  {
    FilterIdempotent(Keeps(query), services);
  }

  /** A query whose first character occurs in none of the searched texts shows nothing. */
  lemma {:induction false} UnmatchedQueryShowsNothing(services: seq<Service>, query: string)
    requires |query| > 0
    requires forall i :: 0 <= i < |services| ==> LacksChar(services[i], query[0])
    ensures FilteredServices(services, query) == []
  {
    forall i | 0 <= i < |services| ensures !Keeps(query)(services[i]) {
      var s := services[i];
      AbsentFirstChar(s.title, query);
      AbsentFirstChar(s.description, query);
      AbsentFirstChar(s.category, query);
    }
    FilterNone(Keeps(query), services);
  }

  // ---------------------------------------------------------------------
  // Searching the sample list for "기초연금": only the pension itself is
  // shown, although the job scheme names the pension in its eligibility.
  // ---------------------------------------------------------------------

  lemma PensionTitleMatches()
    ensures Matches(BasicPension, "기초연금")
  {
    assert StartsWith(BasicPension.title, "기초연금");
  }

  lemma JobsEligibilityNamesPension()
    ensures Contains(SeniorJobs.eligibility, "기초연금")
  {
    var e := SeniorJobs.eligibility;
    assert e == "만 65세 이상 " + "기초연금" + " 수급자";
    ContainsEmpty("기초연금");
    ContainsInContext("만 65세 이상 ", "기초연금", " 수급자", "기초연금");
  }

  /** None of the searched texts of `s` holds the character `c`. */
  predicate LacksChar(s: Service, c: char)
  {
    c !in s.title && c !in s.description && c !in s.category
  }

  lemma JobsLackInitial()
    ensures LacksChar(SeniorJobs, '기')
  {
    JobsTitleLacks();
    JobsDescriptionLacks();
  }

  lemma JobsTitleLacks()
    ensures '기' !in JobsTitle
  {
  }

  lemma JobsDescriptionLacks()
    ensures '기' !in JobsDescription
  {
  }

  lemma DiscountLacksInitial()
    ensures LacksChar(SeniorDiscount, '기')
  {
    DiscountTitleLacks();
    DiscountDescriptionLacks();
  }

  lemma DiscountTitleLacks()
    ensures '기' !in DiscountTitle
  {
  }

  lemma DiscountDescriptionLacks()
    ensures '기' !in DiscountDescription
  {
  }

  lemma FluShotLacksInitial()
    ensures LacksChar(FluShot, '기')
  {
    FluShotTitleLacks();
    FluShotDescriptionLacks();
  }

  lemma FluShotTitleLacks()
    ensures '기' !in FluShotTitle
  {
  }

  lemma FluShotDescriptionLacks()
    ensures '기' !in FluShotDescription
  {
  }

  lemma OthersShowNothing()
    ensures FilteredServices([SeniorJobs, SeniorDiscount, FluShot], "기초연금") == []
  {
    JobsLackInitial();
    DiscountLacksInitial();
    FluShotLacksInitial();
    var others := [SeniorJobs, SeniorDiscount, FluShot];
    assert "기초연금"[0] == '기';
    assert forall i :: 0 <= i < |others| ==> LacksChar(others[i], '기');
    UnmatchedQueryShowsNothing(others, "기초연금");
  }

  lemma PensionSearchExample()
    ensures FilteredServices(SampleServices, "기초연금") == [BasicPension]
    ensures Contains(SeniorJobs.eligibility, "기초연금")
  {
    PensionTitleMatches();
    JobsEligibilityNamesPension();
    OthersShowNothing();
    assert SampleServices[1..] == [SeniorJobs, SeniorDiscount, FluShot];
    assert Keeps("기초연금")(SampleServices[0]);
  }
}
