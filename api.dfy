/**
 * The parts of the API client that decide something without the network: the
 * error-message helper `handleAPIError`, and the offline fall-backs of
 * `welfareAPI.searchWelfareServices` and `welfareAPI.getWelfareServiceById`
 * over the built-in dummy services.
 */
module Api {
  import opened Wrappers
  import opened JsStrings
  import opened Seqs

  // ---------------------------------------------------------------------
  // handleAPIError
  // ---------------------------------------------------------------------

  /** The part of an HTTP error response the helper looks at: the status and the
      optional `data.message` (absent when `data` or its `message` is missing). */
  datatype ServerResponse = ServerResponse(status: int, message: Option<string>)

  /** An axios error: the server's response if one arrived, and whether a request
      was sent at all. */
  datatype ApiError = ApiError(response: Option<ServerResponse>, request: bool)

  const DefaultErrorMessage := "오류가 발생했습니다."
  const UnauthorizedMessage := "인증이 필요합니다. 다시 로그인해주세요."
  const ForbiddenMessage := "권한이 없습니다."
  const NotFoundMessage := "요청한 정보를 찾을 수 없습니다."
  const ServerErrorMessage := "서버 오류가 발생했습니다. 잠시 후 다시 시도해주세요."
  const NetworkMessage := "네트워크 연결을 확인해주세요."

  /** The `customMessage` parameter: `None` when the caller leaves it out. */
  function CustomOrDefault(customMessage: Option<string>): (r: string)
    ensures customMessage.None? ==> r == DefaultErrorMessage
    ensures customMessage.Some? ==> r == customMessage.value
  {
    customMessage.GetOr(DefaultErrorMessage)
  }

  /** `message || fallback`: the empty string is falsy and gives way to `fallback`. */
  function MessageOr(message: Option<string>, fallback: string): (r: string)
    ensures r == fallback || (message.Some? && r == message.value && r != "")
    ensures message.Some? && message.value != "" ==> r == message.value
  {
    if message.Some? && message.value != "" then message.value else fallback
  }

  /** `handleAPIError(error, customMessage)`. */
  function HandleApiError(error: ApiError, customMessage: Option<string>): (r: string)
    ensures r in {UnauthorizedMessage, ForbiddenMessage, NotFoundMessage, ServerErrorMessage,
                  NetworkMessage, CustomOrDefault(customMessage)}
            || (error.response.Some? && error.response.value.message == Some(r) && r != "")
  {
    match error.response
    case Some(response) =>
      var message := MessageOr(response.message, CustomOrDefault(customMessage));
      if response.status == 401 then UnauthorizedMessage
      else if response.status == 403 then ForbiddenMessage
      else if response.status == 404 then NotFoundMessage
      else if response.status >= 500 then ServerErrorMessage
      else message
    case None =>
      if error.request then NetworkMessage else CustomOrDefault(customMessage)
  }

  /** A response with one of the recognised statuses gets its fixed message, whatever the
      server said, whether a request is recorded and whatever the caller passed. */
  lemma {:induction false} StatusMessages(status: int, message: Option<string>, request: bool,
                                          customMessage: Option<string>)
    ensures var r := HandleApiError(ApiError(Some(ServerResponse(status, message)), request), customMessage);
            (status == 401 ==> r == UnauthorizedMessage)
            && (status == 403 ==> r == ForbiddenMessage)
            && (status == 404 ==> r == NotFoundMessage)
            && (status >= 500 ==> r == ServerErrorMessage)
  {
  }

  /** Any other status passes the server's non-empty message on, and otherwise the
      caller's message, or the default one. */
  lemma {:induction false} OtherStatusMessage(status: int, message: Option<string>, request: bool,
                                              customMessage: Option<string>)
    requires status != 401 && status != 403 && status != 404 && status < 500
    ensures var r := HandleApiError(ApiError(Some(ServerResponse(status, message)), request), customMessage);
            (message.Some? && message.value != "" ==> r == message.value)
            && (message.None? || message.value == "" ==> r == CustomOrDefault(customMessage))
  {
  }

  /** Without a response the helper reports the network when a request went out, and the
      caller's message, by default `'오류가 발생했습니다.'`, otherwise. */
  lemma {:induction false} NoResponseMessage(request: bool, customMessage: Option<string>)
    ensures HandleApiError(ApiError(None, true), customMessage) == NetworkMessage
    ensures HandleApiError(ApiError(None, false), customMessage) == CustomOrDefault(customMessage)
    ensures HandleApiError(ApiError(None, false), None) == DefaultErrorMessage
  {
  }

  /** The server's own message is shown exactly when it is non-empty and the status is
      not one of those with a fixed message (and differs from them). */
  lemma {:induction false} ServerMessageShownIff(status: int, text: string, request: bool,
                                                 customMessage: Option<string>)
    requires text !in {UnauthorizedMessage, ForbiddenMessage, NotFoundMessage, ServerErrorMessage}
    requires text != CustomOrDefault(customMessage)
    ensures HandleApiError(ApiError(Some(ServerResponse(status, Some(text))), request), customMessage) == text
            <==> text != "" && status != 401 && status != 403 && status != 404 && status < 500
  {
  }

  // ---------------------------------------------------------------------
  // The dummy welfare services
  // ---------------------------------------------------------------------

  /** A welfare service record of the API. */
  datatype WelfareService = WelfareService(
    serviceId: string,
    title: string,
    description: string,
    category: string,
    target: string,
    amount: string,
    applicationMethod: string,
    requiredDocuments: string,
    contactInfo: string,
    url: string,
    isEligible: bool)

  const BasicPension := WelfareService("WLF00000001", "기초연금",
    "만 65세 이상 어르신들의 안정된 노후생활을 위한 기초연금 지원", "경제지원", "만 65세 이상",
    "월 최대 334,810원", "국민연금공단, 주민센터 방문 또는 온라인 신청",
    "신분증, 통장사본, 소득·재산 관련 서류", "국민연금공단 1355", "https://basicpension.nps.or.kr", true)

  const LongTermCare := WelfareService("WLF00000002", "노인장기요양보험",
    "일상생활이 어려운 노인분들에게 신체활동 또는 가사활동 지원 서비스 제공", "돌봄서비스",
    "만 65세 이상 또는 65세 미만 노인성 질병자", "본인부담금 15-20%", "국민건강보험공단 방문 또는 온라인 신청",
    "신청서, 의사소견서", "국민건강보험공단 1577-1000", "https://www.longtermcare.or.kr", true)

  const DementiaCare := WelfareService("WLF00000003", "치매안심센터 서비스",
    "치매 예방, 진단, 치료, 돌봄까지 치매 관련 종합서비스 제공", "건강의료", "60세 이상 지역주민",
    "무료", "해당 지역 치매안심센터 방문 또는 전화 신청", "신분증", "중앙치매센터 1899-9988",
    "https://www.nid.or.kr", true)

  const SeniorJobs := WelfareService("WLF00000004", "노인일자리 및 사회활동 지원사업",
    "어르신들의 활기찬 노후생활과 소득보장을 위한 일자리 및 사회활동 지원", "사회참여", "만 65세 이상",
    "월 27만원 ~ 71만원", "시니어클럽, 대한노인회 등 수행기관 방문 신청", "신청서, 신분증, 건강진단서",
    "한국노인인력개발원 1544-3388", "https://www.kordi.or.kr", true)

  /** `getDummyWelfareServices()`. */
  const DummyWelfareServices: seq<WelfareService> := [BasicPension, LongTermCare, DementiaCare, SeniorJobs]

  /** No two services of `services` share an id. */
  predicate DistinctIds(services: seq<WelfareService>)
  {
    forall i, j :: 0 <= i < j < |services| ==> services[i].serviceId != services[j].serviceId
  }

  /** The four dummy services have pairwise distinct ids. */
  lemma DummyIdsDistinct()
    ensures DistinctIds(DummyWelfareServices)
  {
    var last := [BasicPension.serviceId[10], LongTermCare.serviceId[10],
                 DementiaCare.serviceId[10], SeniorJobs.serviceId[10]];
    assert last == ['1', '2', '3', '4'];
    forall i, j | 0 <= i < j < |DummyWelfareServices|
      ensures DummyWelfareServices[i].serviceId[10] != DummyWelfareServices[j].serviceId[10]
    {
      assert DummyWelfareServices[i].serviceId[10] == last[i];
      assert DummyWelfareServices[j].serviceId[10] == last[j];
    }
  }

  // ---------------------------------------------------------------------
  // The offline search
  // ---------------------------------------------------------------------

  /** The `pagination` object of a search result. */
  datatype Pagination = Pagination(total: nat, page: nat, limit: nat, pages: nat)

  /** A search response: `{success, data, pagination}`. */
  datatype SearchResult = SearchResult(success: bool, data: seq<WelfareService>, pagination: Pagination)

  /** The lower-cased title or description contains the lower-cased keyword. */
  predicate MatchesKeyword(service: WelfareService, keyword: string)
  {
    Contains(ToLower(service.title), ToLower(keyword))
    || Contains(ToLower(service.description), ToLower(keyword))
  }

  /** The search over a list of services, as the fall-back runs it. */
  function SearchIn(services: seq<WelfareService>, keyword: string): (r: SearchResult)
    ensures r.success && r.pagination == Pagination(|r.data|, 1, 10, 1)
    ensures forall i :: 0 <= i < |r.data| ==> r.data[i] in services && MatchesKeyword(r.data[i], keyword)
    ensures forall i :: 0 <= i < |services| && MatchesKeyword(services[i], keyword) ==> services[i] in r.data
    ensures forall i :: 0 <= i < |services| ==>
              multiset(r.data)[services[i]] == if MatchesKeyword(services[i], keyword) then multiset(services)[services[i]] else 0
  {
    var filtered := Filter(s => MatchesKeyword(s, keyword), services);
    SearchResult(true, filtered, Pagination(|filtered|, 1, 10, 1))
  }

  /** The fall-back of `searchWelfareServices(keyword)` once the request has failed. */
  function SearchOffline(keyword: string): SearchResult
  {
    SearchIn(DummyWelfareServices, keyword)
  }

  /** The search keeps the order of the list it searches. */
  lemma {:induction false} SearchKeepsOrder(services: seq<WelfareService>, keyword: string)
    ensures IsSubsequence(SearchIn(services, keyword).data, services)
  {
    FilterIsSubsequence(s => MatchesKeyword(s, keyword), services);
  }

  /** The offline search keeps exactly the matching dummy services, in their order, and
      reports their number as the total on a single page of ten. */
  lemma {:induction false} SearchOfflineSpec(keyword: string)
    ensures var r := SearchOffline(keyword);
            r.success && r.pagination == Pagination(|r.data|, 1, 10, 1)
            && IsSubsequence(r.data, DummyWelfareServices)
            && (forall i :: 0 <= i < |r.data| ==> MatchesKeyword(r.data[i], keyword))
            && (forall i :: 0 <= i < |DummyWelfareServices| && MatchesKeyword(DummyWelfareServices[i], keyword)
                  ==> DummyWelfareServices[i] in r.data)
  {
    SearchKeepsOrder(DummyWelfareServices, keyword);
  }

  /** The search ignores the case of the keyword. */
  lemma {:induction false} SearchIgnoresKeywordCase(services: seq<WelfareService>, keyword: string)
    ensures SearchIn(services, ToLower(keyword)) == SearchIn(services, keyword)
  {
    ToLowerIdempotent(keyword);
    FilterCongruent(s => MatchesKeyword(s, ToLower(keyword)), s => MatchesKeyword(s, keyword), services);
  }

  /** The empty keyword keeps every service. */
  lemma {:induction false} EmptyKeywordKeepsAll(services: seq<WelfareService>)
    ensures SearchIn(services, "").data == services
  {
    forall i | 0 <= i < |services|
      ensures MatchesKeyword(services[i], "")
    {
      ContainsEmpty(ToLower(services[i].title));
    }
    FilterKeepsAll(s => MatchesKeyword(s, ""), services);
  }

  // ---------------------------------------------------------------------
  // The offline lookup
  // ---------------------------------------------------------------------

  /** A lookup response: `{success, data}`, `data` being `None` for `null`. */
  datatype LookupResult = LookupResult(success: bool, data: Option<WelfareService>)

  /** `services.find(s => s.serviceId === serviceId)`, wrapped as the fall-back wraps it. */
  function LookupIn(services: seq<WelfareService>, serviceId: string): (r: LookupResult)
    ensures r.success <==> r.data.Some?
    ensures r.success <==> exists i :: 0 <= i < |services| && services[i].serviceId == serviceId
    ensures r.data.Some? ==> r.data.value in services && r.data.value.serviceId == serviceId
  {
    var service := Find((s: WelfareService) => s.serviceId == serviceId, services);
    LookupResult(service.Some?, service)
  }

  /** Among services with distinct ids, looking up the id of one finds that very one. */
  lemma {:induction false} LookupInverse(services: seq<WelfareService>, i: nat)
    requires DistinctIds(services) && i < |services|
    ensures LookupIn(services, services[i].serviceId) == LookupResult(true, Some(services[i]))
  {
    var r := LookupIn(services, services[i].serviceId);
    var k :| 0 <= k < |services| && services[k] == r.data.value;
    assert services[k].serviceId == services[i].serviceId;
  }

  /** The fall-back of `getWelfareServiceById(serviceId)` once the request has failed. */
  function FindById(serviceId: string): LookupResult
  {
    LookupIn(DummyWelfareServices, serviceId)
  }

  /** Looking up the id of a dummy service finds that very service, and an id no dummy
      service has finds nothing. */
  lemma {:induction false} FindByIdSpec(serviceId: string, i: nat)
    requires i < |DummyWelfareServices|
    ensures FindById(DummyWelfareServices[i].serviceId) == LookupResult(true, Some(DummyWelfareServices[i]))
    ensures (forall k :: 0 <= k < |DummyWelfareServices| ==> DummyWelfareServices[k].serviceId != serviceId)
            ==> FindById(serviceId) == LookupResult(false, None)
  {
    DummyIdsDistinct();
    LookupInverse(DummyWelfareServices, i);
  }
}
