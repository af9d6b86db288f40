/**
 * Launch mediator: five disciplines talk only through the mediator, which keeps the
 * last message of every discipline and turns a dispatch into a routed log entry.
 */
module Mediator {
  import opened Ids

  datatype Discipline = Research | Design | Engineering | QA | Marketing

  datatype ChannelBrief = ChannelBrief(id: Discipline, displayLabel: string, summary: string, accent: string)

  /** The static `channelBriefs` list, one brief per discipline. */
  const ChannelBriefs: seq<ChannelBrief> := [
    ChannelBrief(Research, "Research", "문제 정의와 기회 영역을 탐색합니다.", "#fef3c7"),
    ChannelBrief(Design, "Design", "핵심 플로우와 시각 시스템을 조율합니다.", "#ede9fe"),
    ChannelBrief(Engineering, "Engineering", "기술 제약과 배포 경로를 확정합니다.", "#cffafe"),
    ChannelBrief(QA, "QA", "릴리즈 후보를 검증하고 리스크를 기록합니다.", "#fee2e2"),
    ChannelBrief(Marketing, "Marketing", "시장 메시지와 런치 캠페인을 동기화합니다.", "#ecfccb")
  ]

  datatype UpdateTemplate = UpdateTemplate(summary: string, routedTo: seq<Discipline>, nudge: string)

  /**
   * The static `updateLibrary` table. Every discipline has a template to draw, and no
   * template routes an update back to the discipline that sent it.
   */
  function UpdateLibrary(d: Discipline): (templates: seq<UpdateTemplate>)
    ensures |templates| > 0
    ensures forall t :: t in templates ==> |t.routedTo| > 0 && d !in t.routedTo
  {
    match d
    case Research => [
      UpdateTemplate("신규 페르소나 인터뷰 6건 분석 완료", [Design, Marketing], "UX 스토리 업데이트 필요"),
      UpdateTemplate("리텐션 저하 원인 3가지 가설 정리", [Design, Engineering], "기능 플래그 비교 실험 요청")]
    case Design => [
      UpdateTemplate("온보딩 플로우 와이어프레임 v2 공유", [Engineering, QA], "제스처 정책 리뷰 필요"),
      UpdateTemplate("앱 다크모드 토큰 초안 배포", [Engineering, Marketing], "마케팅 시각 자료와 색상 동기화")]
    case Engineering => [
      UpdateTemplate("실시간 동기화 엔진 부하 테스트 통과", [QA, Marketing], "성능 수치 기반 메시지 준비"),
      UpdateTemplate("새 API 한도 정책 Dev 환경에 반영", [Design, QA], "에러 상태 화면 점검 필요")]
    case QA => [
      UpdateTemplate("E2E 시나리오 42건 중 39건 통과", [Engineering], "실패 케이스 패치 ETA 요청"),
      UpdateTemplate("앱 스토어 심사 체크리스트 업데이트", [Marketing, Engineering], "메타데이터/권한 항목 재확인")]
    case Marketing => [
      UpdateTemplate("프리뷰 영상 스토리보드 최종 승인", [Design], "UI 캡처 전달 부탁"),
      UpdateTemplate("랠리 캠페인 랜딩 초안 배포", [Research, Engineering], "핵심 수치 검증 요청")]
  }

  /** `pickTemplate` with its draw given as the chosen slot of the discipline's list. */
  function PickTemplate(d: Discipline, choice: nat): (t: UpdateTemplate)
    requires choice < |UpdateLibrary(d)|
    ensures t in UpdateLibrary(d)
  {
    UpdateLibrary(d)[choice]
  }

  /**
   * The record the constructor's `reduce` builds from a list of briefs: each brief
   * in turn sets its discipline's entry to its summary, so a later brief overrides.
   */
  function Accumulate(briefs: seq<ChannelBrief>): map<Discipline, string>
  {
    if briefs == [] then map[]
    else
      var last := briefs[|briefs| - 1];
      Accumulate(briefs[..|briefs| - 1])[last.id := last.summary]
  }

  /** The record has an entry for exactly the disciplines the briefs name. */
  lemma {:induction false} AccumulateKeys(briefs: seq<ChannelBrief>)
    ensures Accumulate(briefs).Keys == set b | b in briefs :: b.id
  {
    if briefs != [] {
      var prefix := briefs[..|briefs| - 1];
      AccumulateKeys(prefix);
      assert briefs == prefix + [briefs[|briefs| - 1]];
    }
  }

  /** A brief that no later brief overrides leaves its summary in the record. */
  lemma {:induction false} AccumulateLastWins(briefs: seq<ChannelBrief>, i: nat)
    requires i < |briefs|
    requires forall j :: i < j < |briefs| ==> briefs[j].id != briefs[i].id
    ensures briefs[i].id in Accumulate(briefs)
    ensures Accumulate(briefs)[briefs[i].id] == briefs[i].summary
  {
    if i < |briefs| - 1 {
      AccumulateLastWins(briefs[..|briefs| - 1], i);
    }
  }

  /** From the static briefs the record is total and holds each discipline's own summary. */
  lemma InitialMessages()
    ensures forall d: Discipline :: d in Accumulate(ChannelBriefs)
    ensures forall i :: 0 <= i < |ChannelBriefs| ==>
              Accumulate(ChannelBriefs)[ChannelBriefs[i].id] == ChannelBriefs[i].summary
  {
    AccumulateKeys(ChannelBriefs);
    forall d: Discipline ensures d in Accumulate(ChannelBriefs) {
      var i := match d
        case Research => 0 case Design => 1 case Engineering => 2 case QA => 3 case Marketing => 4;
      assert ChannelBriefs[i] in ChannelBriefs;
    }
    forall i | 0 <= i < |ChannelBriefs|
      ensures Accumulate(ChannelBriefs)[ChannelBriefs[i].id] == ChannelBriefs[i].summary
    {
      AccumulateLastWins(ChannelBriefs, i);
    }
  }

  datatype LogEntry = LogEntry(
    id: GeneratedId, from: Discipline, summary: string, routedTo: seq<Discipline>, nudge: string)

  class LaunchMediator {
    var lastMessage: map<Discipline, string>

    /** `lastMessage` is a total record over the disciplines. */
    ghost predicate Valid()
      reads this
    {
      forall d: Discipline :: d in lastMessage
    }

    /** Seeds every discipline's entry with its channel brief's summary. */
    constructor ()
      ensures Valid()
      ensures lastMessage == Accumulate(ChannelBriefs)
      ensures forall i :: 0 <= i < |ChannelBriefs| ==>
                lastMessage[ChannelBriefs[i].id] == ChannelBriefs[i].summary
    {
      var acc: map<Discipline, string> := map[];
      for i := 0 to |ChannelBriefs|
        invariant acc == Accumulate(ChannelBriefs[..i])
      {
        assert ChannelBriefs[..i + 1][..i] == ChannelBriefs[..i];
        acc := acc[ChannelBriefs[i].id := ChannelBriefs[i].summary];
      }
      assert ChannelBriefs[..|ChannelBriefs|] == ChannelBriefs;
      lastMessage := acc;
      InitialMessages();
    }

    /**
     * Records the chosen template's summary as `d`'s last message, leaving every other
     * entry as it was, and returns the routed log entry with a fresh log id.
     */
    method Dispatch(d: Discipline, choice: nat, logIds: Counter) returns (entry: LogEntry)
      requires Valid()
      requires choice < |UpdateLibrary(d)|
      modifies this, logIds
      ensures Valid()
      ensures lastMessage == old(lastMessage)[d := UpdateLibrary(d)[choice].summary]
      ensures forall e :: e != d ==> lastMessage[e] == old(lastMessage)[e]
      ensures logIds.count == old(logIds.count) + 1
      ensures entry.id == GeneratedId("mediator-log", logIds.count)
      ensures entry.from == d
      ensures entry.summary == UpdateLibrary(d)[choice].summary
      ensures entry.routedTo == UpdateLibrary(d)[choice].routedTo
      ensures entry.nudge == UpdateLibrary(d)[choice].nudge
    {
      var template := PickTemplate(d, choice);
      lastMessage := lastMessage[d := template.summary];
      var id := logIds.Next("mediator-log");
      entry := LogEntry(id, d, template.summary, template.routedTo, template.nudge);
    }

    /** A copy of the current record: total, and equal to it entry by entry. */
    function GetChannelSnapshot(): (snapshot: map<Discipline, string>)
      reads this
      requires Valid()
      ensures forall d: Discipline :: d in snapshot && snapshot[d] == lastMessage[d]
    {
      map d: Discipline | d in lastMessage :: lastMessage[d]
    }
  }
}
