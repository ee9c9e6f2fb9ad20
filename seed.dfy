/**
 * The seed dataset: the default sites with their timelines and the canonical
 * 19-item checklist, as written in the store (src/lib/store.js) and in the
 * older localStorage module (src/lib/storage.js).
 */
module Seed {
  import opened Wrappers
  import opened Domain
  import opened JsText

  /** The number of items of the canonical checklist. */
  const ChecklistSize: nat := 19

  /** A seed timeline item of the store: status `pending`, no stamps, no legacy keys. */
  function Task(id: int, step: string, task: string, section: string, subsection: Option<string>,
                role: string, startDate: Option<string>, completionDate: Option<string>): (t: TimelineItem)
    ensures t.id == id && t.status == Some("pending") && t.completedAt == None && t.completedBy == None
  {
    TimelineItem(id, step, Some(task), None, section, subsection, None, Some("pending"), Some(role),
                 None, None, startDate, completionDate, None, None)
  }

  /** The literal fields of a seed task of the store, as `getInitialTimeline` lists them. */
  datatype TaskRow = TaskRow(step: string, task: string, section: string, subsection: Option<string>,
                             role: string, startDate: Option<string>, completionDate: Option<string>)

  /** The seed task of the store with index `i` (id `i + 1`). */
  function SeedTask(i: int): (t: TimelineItem)
    ensures t.id == i + 1 && t.status == Some("pending") && t.completedAt == None && t.completedBy == None
  {
    var r := SeedRow(i);
    Task(i + 1, r.step, r.task, r.section, r.subsection, r.role, r.startDate, r.completionDate)
  }

  /** The fields of the seed task with index `i`. */
  function SeedRow(i: int): TaskRow {
    match i
    case 0 => TaskRow("1-01", "Kick-Off", "구축 및 설치", Some("사전 준비"), "both", None, None)
    case 1 => TaskRow("1-02", "현장 답사시 비콘 갯수 픽스", "구축 및 설치", Some("사전 준비"), "field", None, None)
    case 2 => TaskRow("1-03", "비콘 번호 체계표 생성 및 비콘 개발사에 전달", "구축 및 설치", Some("사전 준비"), "field", None, None)
    case 3 => TaskRow("1-04", "계약 FIX 되면 운영 서버 개발사에 개발 요청", "구축 및 설치", Some("사전 준비"), "rnd", None, None)
    case 4 => TaskRow("1-05", "제품 발주", "구축 및 설치", Some("사전 준비"), "field", None, None)
    case 5 => TaskRow("1-06", "IP 할당 및 구축", "구축 및 설치", Some("인프라 구축"), "field", Some("2024-12-19"), Some("2024-12-19"))
    case 6 => TaskRow("1-07", "포트포워딩", "구축 및 설치", Some("인프라 구축"), "field", Some("2024-12-19"), Some("2024-12-19"))
    case 7 => TaskRow("1-08", "중계기 설치 실사 동행 및 송수신 통신 테스트", "구축 및 설치", Some("인프라 구축"), "field", None, None)
    case 8 => TaskRow("1-09", "중계기 세팅", "구축 및 설치", Some("인프라 구축"), "field", None, None)
    case 9 => TaskRow("1-10", "중계기 음영지역 테스트", "구축 및 설치", Some("인프라 구축"), "field", None, None)
    case 10 => TaskRow("1-11", "중계기 방폭존 잔여 설치 공사", "구축 및 설치", Some("인프라 구축"), "field", None, None)
    case 11 => TaskRow("1-12", "VPN 세팅", "구축 및 설치", Some("인프라 구축"), "field", None, None)
    case 12 => TaskRow("1-13", "Lora 네트워크 서버 현장 서버실 설치", "구축 및 설치", Some("인프라 구축"), "field", None, None)
    case 13 => TaskRow("1-14", "통신 품질테스트", "구축 및 설치", Some("인프라 구축"), "field", None, None)
    case 14 => TaskRow("1-15", "중계기 품질 측정", "구축 및 설치", Some("인프라 구축"), "field", None, None)
    case 15 => TaskRow("1-16", "PPM 고정가스 검침기 설치용 AP 셋팅을 위한 전송 서버 주소 및 고유 아이디 생성 및 배포", "구축 및 설치", Some("가스검침기 설치"), "field", None, None)
    case 16 => TaskRow("1-17", "PPM 고정가스 검침기 설치", "구축 및 설치", Some("가스검침기 설치"), "field", None, None)
    case 17 => TaskRow("1-18", "알리고 API 신규 사업소 IP 등록", "구축 및 설치", Some("운영서버 설치"), "rnd", None, None)
    case 18 => TaskRow("1-19", "운영서버 준비 완료 확인", "구축 및 설치", Some("운영서버 설치"), "rnd", None, None)
    case 19 => TaskRow("1-20", "운영서버 현장 서버실 설치", "구축 및 설치", Some("운영서버 설치"), "field", None, None)
    case 20 => TaskRow("1-21", "운영서버 URL 확인", "구축 및 설치", Some("운영서버 설치"), "field", None, None)
    case 21 => TaskRow("1-22", "운영서버 권한 설정", "구축 및 설치", Some("운영서버 설정"), "field", None, None)
    case 22 => TaskRow("1-23", "운영서버 사용자 설정", "구축 및 설치", Some("운영서버 설정"), "field", None, None)
    case 23 => TaskRow("1-24", "운영서버 데이터 정책 관리 설정", "구축 및 설치", Some("운영서버 설정"), "field", None, None)
    case 24 => TaskRow("1-25", "지자체 로고 파일 준비", "구축 및 설치", Some("운영서버 설정"), "rnd", None, None)
    case 25 => TaskRow("1-26", "트래커 EUI LIST 확인", "구축 및 설치", Some("운영서버 설정"), "field", None, None)
    case 26 => TaskRow("1-27", "운영서버 운영사 관리 설정", "구축 및 설치", Some("운영서버 설정"), "field", None, None)
    case 27 => TaskRow("1-28", "운영서버 센서 공급사 설정", "구축 및 설치", Some("운영서버 설정"), "field", None, None)
    case 28 => TaskRow("1-29", "운영서버 센서 마스터 관리 설정", "구축 및 설치", Some("운영서버 설정"), "field", None, None)
    case 29 => TaskRow("1-30", "운영서버 현장-센서 권한 관리 설정", "구축 및 설치", Some("운영서버 설정"), "field", None, None)
    case 30 => TaskRow("1-31", "현장 관리 - 도면 세팅", "구축 및 설치", Some("운영서버 데이터 등록"), "rnd", None, None)
    case 31 => TaskRow("1-32", "현장 관리 - 현장 등록", "구축 및 설치", Some("운영서버 데이터 등록"), "field", None, None)
    case 32 => TaskRow("1-33", "비콘 관리 - 비콘 등록", "구축 및 설치", Some("운영서버 데이터 등록"), "field", None, None)
    case 33 => TaskRow("1-34", "트래커 관리 - 트래커 등록", "구축 및 설치", Some("운영서버 데이터 등록"), "field", None, None)
    case 34 => TaskRow("1-35", "이동형중계기 관리 - 이동형중계기 등록", "구축 및 설치", Some("운영서버 데이터 등록"), "field", None, None)
    case 35 => TaskRow("1-36", "센서 관리 - 워치 등록", "구축 및 설치", Some("운영서버 데이터 등록"), "field", None, None)
    case 36 => TaskRow("1-37", "센서 관리 - 이동가스검침기 등록", "구축 및 설치", Some("운영서버 데이터 등록"), "field", None, None)
    case 37 => TaskRow("1-38", "알림 관리 - 알림 등록", "구축 및 설치", Some("운영서버 데이터 등록"), "field", None, None)
    case 38 => TaskRow("1-39", "작업자 관리 - 작업자 등록", "구축 및 설치", Some("운영서버 데이터 등록"), "field", None, None)
    case 39 => TaskRow("1-40", "작업자 관리 - 트래커/센서 교부", "구축 및 설치", Some("운영서버 데이터 등록"), "field", None, None)
    case 40 => TaskRow("1-41", "위험성 평가 관리 - 위험성 평가 등록", "구축 및 설치", Some("운영서버 데이터 등록"), "field", None, None)
    case 41 => TaskRow("1-42", "작업 관리 - 작업 등록", "구축 및 설치", Some("운영서버 데이터 등록"), "field", None, None)
    case 42 => TaskRow("1-43", "증빙자료 관리 - 증빙자료 13항 카테고리 등록", "구축 및 설치", Some("운영서버 데이터 등록"), "rnd", None, None)
    case 43 => TaskRow("1-44", "비콘 설치", "구축 및 설치", Some("현장 설치"), "field", None, None)
    case 44 => TaskRow("1-45", "지오 펜스 & 셀 플래닝", "구축 및 설치", Some("현장 설치"), "field", None, None)
    case 45 => TaskRow("1-46", "트래커 스마트 워치 MAC 매핑", "구축 및 설치", Some("현장 설치"), "field", None, None)
    case 46 => TaskRow("1-47", "스마트 워치 APP 설치", "구축 및 설치", Some("현장 설치"), "field", Some("2024-12-16"), Some("2024-12-19"))
    case 47 => TaskRow("2-01", "사업소 명 확인", "대시보드 필드 테스트", None, "both", None, None)
    case 48 => TaskRow("2-02", "날짜 확인", "대시보드 필드 테스트", None, "both", None, None)
    case 49 => TaskRow("2-03", "날씨 데이터 확인", "대시보드 필드 테스트", None, "both", None, None)
    case 50 => TaskRow("2-04", "작업자 데이터 확인", "대시보드 필드 테스트", None, "both", None, None)
    case 51 => TaskRow("2-05", "작업 목록 데이터 확인", "대시보드 필드 테스트", None, "both", None, None)
    case 52 => TaskRow("2-06", "고정형 비콘 데이터 확인", "대시보드 필드 테스트", None, "both", None, None)
    case 53 => TaskRow("2-07", "트래커 데이터 확인", "대시보드 필드 테스트", None, "both", None, None)
    case 54 => TaskRow("2-08", "워치 데이터 확인", "대시보드 필드 테스트", None, "both", None, None)
    case 55 => TaskRow("2-09", "이동형 가스검침기 데이터 확인", "대시보드 필드 테스트", None, "both", None, None)
    case 56 => TaskRow("2-10", "이동형 중계기 데이터 확인", "대시보드 필드 테스트", None, "both", None, None)
    case 57 => TaskRow("2-11", "고정가스 검침기 데이터 확인", "대시보드 필드 테스트", None, "both", None, None)
    case 58 => TaskRow("2-12", "배터리 및 상태 이상 IoT 센서 현황 데이터 확인", "대시보드 필드 테스트", None, "both", None, None)
    case 59 => TaskRow("2-13", "위급 상황 현황 데이터 확인", "대시보드 필드 테스트", None, "both", None, None)
    case 60 => TaskRow("3-01", "현장 VOC 점검 리스트 확인", "준공 및 문서", None, "both", None, None)
    case 61 => TaskRow("3-02", "메뉴얼 문서 작업", "준공 및 문서", None, "field", None, None)
    case 62 => TaskRow("3-03", "준공 문서 제출", "준공 및 문서", None, "field", None, None)
    case 63 => TaskRow("3-04", "H/W, S/W 제품 사용 교육", "준공 및 문서", None, "field", None, None)
    case 64 => TaskRow("3-05", "사업소에 제품 배포 및 수량 확인", "준공 및 문서", None, "field", None, None)
    case 65 => TaskRow("3-06", "준공 검수", "준공 및 문서", None, "field", None, None)
    case 66 => TaskRow("3-07", "준공 완료", "준공 및 문서", None, "both", None, None)
    case _ => TaskRow("", "", "", None, "both", None, None)
  }

  /** `getInitialTimeline()` of the store: 67 pending tasks in three sections. */
  function InitialTimeline(): (t: seq<TimelineItem>)
    ensures |t| == 67
    ensures forall i :: 0 <= i < |t| ==> t[i].id == i + 1 && t[i].status == Some("pending") && t[i].completedAt == None
  {
    seq(67, i requires 0 <= i < 67 => SeedTask(i))
  }

  /** The text of the canonical checklist item with index `i` (id `i + 1`). */
  function ChecklistText(i: int): string {
    match i
    case 0 => "위급상황(심박위험, 유해가스위험, SOS신호), 위험작업(위험 작업), 현재 작업자 현황(잔류 작업자 수, 전체 입실자 수, 전체 퇴실자 수)"
    case 1 => "작업자가 트래커를 착용해서 위치비콘이 설치된 곳에 위치하면 대시보드에 착용자의 위치가 출력되는가"
    case 2 => "작업자의 이름, 위치, 심박수, 가스정보(이동형 가스검지기) 등 데이터가 대시보드에 출력되는가"
    case 3 => "작업자목록에서 작업자의 행을 클릭하였을 때 작업자의 동선이력이 대시보드에 출력되는가"
    case 4 => "배터리 및 상태 이상 IoT 센서 현황으로 장비명(IoT 센서로 명칭 그룹화), 위치, 배터리가 대시보드에 출력되는가"
    case 5 => "위급상황 현황으로 작업자, 위치, 위급상황, 발생시간이 대시보드에 출력되는가"
    case 6 => "작업목록에서 작업명, 위험도, 위치, 작업자 수, 작업예정일시 및 시작일시, 작업종료일시 작업상태가 대시보드에 출력되는가"
    case 7 => "고정형비콘목록에서 비콘 이름, Major Minor, 위치, 배터리가 대시보드에 출력되는가"
    case 8 => "트래커목록에서 트래커 이름, 작업자명, 배터리, 사용여부, SOS-ON, 발생시간이 대시보드에 출력되는가"
    case 9 => "워치목록에서 워치 이름, 작업자명, 심박수, 배터리, 사용여부, 발생시간이 대시보드에 출력되는가"
    case 10 => "이동형 가스검지기 목록에서 가스센서 이름, 작업자명, 5종가스데이터(CO, CO2, H2S, O2, LEL), 배터리, 사용여부, 발생시간이 대시보드에 출력되는가"
    case 11 => "위치이력, 워치 및 가스센서 이력, 알림이력이 조회 및 백업 데이터로 엑셀파일 생성이 가능한가"
    case 12 => "위험 알림 발생 시(심박수, 유해가스 허용범위를 넘어설 경우,SOS 신호 등), 어느화면에서든 위험 알림 팝업이 출력되는가"
    case 13 => "위험 알림 발생 시 안전관리자의 스마트폰에 SOS 팝업 정보 문자 메세지가 자동 & 수동으로 전달되는가"
    case 14 => "운영서버에서 개인별로 매핑된 갤럭시 워치의 심박수를 최소,최대로 조절이 가능한가"
    case 15 => "입/퇴사자 발생시 작업자 계정 생성/삭제와 트래커, 갤럭시 워치, 휴대용 가스검지기가 매핑되는가"
    case 16 => "해당 위치에 설치된 고정형 가스검침기의 가스데이터(2종, O2와 H2S)가 대시보드에 출력되는가"
    case 17 => "고정형 가스 검지기에서 허용범위를 넘어설 경우 대시보드에 빨간색으로 위험신호로 표시가 되는가"
    case 18 => "고정형 가스 검지기에서 허용범위를 넘어설 경우 알림을 표시하고 관리자에게 문자로 전송되는가"
    case _ => ""
  }

  /** The default `checked` value of the canonical checklist item at index `i` (id `i + 1`). */
  function ChecklistDefault(i: int): bool {
    match i
    case 4 => false
    case 6 => false
    case _ => true
  }

  /** `getInitialChecklist()`: the canonical items with ids 1..19 in order. */
  function InitialChecklist(): (c: seq<ChecklistItem>)
    ensures |c| == ChecklistSize
    ensures forall i :: 0 <= i < |c| ==> c[i].id == i + 1
  {
    seq(ChecklistSize, i requires 0 <= i < ChecklistSize =>
      ChecklistItem(i + 1, ChecklistText(i), ChecklistDefault(i)))
  }

  /** Every canonical item is checked by default except the items with ids 5 and 7. */
  lemma InitialChecklistDefaults()
    ensures forall i :: 0 <= i < ChecklistSize ==>
              InitialChecklist()[i].checked == (i + 1 != 5 && i + 1 != 7)
  {
  }

  /** The timestamp `getCompletedTimeline` gives items that have none. */
  const SeedCompletedAt := "2025-12-15T10:00:00Z"

  /** `getCompletedTimeline()`: every seed task marked completed, keeping an existing `completedAt`. */
  function CompletedTimeline(): (t: seq<TimelineItem>)
    ensures |t| == |InitialTimeline()|
    ensures forall i :: 0 <= i < |t| ==> t[i].status == Some("completed") && t[i].completedAt.Some?
  {
    var init := InitialTimeline();
    seq(|init|, i requires 0 <= i < |init| =>
      init[i].(status := Some("completed"),
               completedAt := if Truthy(init[i].completedAt) then init[i].completedAt else Some(SeedCompletedAt)))
  }

  /** `getCompletedChecklist()`: the canonical checklist with every item checked. */
  function CompletedChecklist(): (c: seq<ChecklistItem>)
    ensures |c| == |InitialChecklist()|
    ensures forall i :: 0 <= i < |c| ==> c[i] == InitialChecklist()[i].(checked := true)
  {
    var init := InitialChecklist();
    seq(|init|, i requires 0 <= i < |init| => init[i].(checked := true))
  }

  /** The three seed sites of the store, one function each so that proofs unfold only the one they need. */
  function AnyangSite(): Site {
    Site("anyang-bakdal", "안양 박달 사업소", InitialTimeline(), InitialChecklist())
  }

  function IcheonSite(): Site {
    Site("icheon-public-sewer", "이천 공공 하수도 사업소", CompletedTimeline(), CompletedChecklist())
  }

  function GunpoSite(): Site {
    Site("gunpo-sewer", "군포 하수도 사업소", InitialTimeline(), InitialChecklist())
  }

  /** `getInitialData().sites` of the store. */
  function InitialSites(): (s: seq<Site>)
    ensures |s| == 3
  {
    [AnyangSite(), IcheonSite(), GunpoSite()]
  }

  /** The seed sites are anyang and gunpo with fresh data, and icheon with every step and item done. */
  lemma SeedSites()
    ensures var s := InitialSites();
      && s[0].id == "anyang-bakdal" && s[1].id == "icheon-public-sewer" && s[2].id == "gunpo-sewer"
      && s[0].timeline == s[2].timeline == InitialTimeline() && s[1].timeline == CompletedTimeline()
      && s[0].checklist == s[2].checklist == InitialChecklist() && s[1].checklist == CompletedChecklist()
  {
  }

  /** The three seed sites have three different ids. */
  lemma SeedSiteIdsDistinct()
    ensures forall i, j :: 0 <= i < j < |InitialSites()| ==> InitialSites()[i].id != InitialSites()[j].id
  {
    SeedSites();
    var s := InitialSites();
    assert |s[0].id| == 13 && |s[1].id| == 19 && |s[2].id| == 11;
  }

  /** A seed timeline item of the older localStorage module: one status per team, no `status` key. */
  function Legacy(id: int, step: string, task: string, section: string, rnd: string, field: string): (t: TimelineItem)
    ensures t.id == id && t.rnd == Some(rnd) && t.field == Some(field)
  {
    TimelineItem(id, step, Some(task), None, section, None, None, None, None,
                 Some(rnd), Some(field), None, None, None, None)
  }

  /** The literal fields of a seed task of src/lib/storage.js. */
  datatype LegacyRow = LegacyRow(step: string, task: string, section: string, rnd: string, field: string)

  /** The seed task of src/lib/storage.js with index `i` (id `i + 1`). */
  function LegacyTask(i: int): (t: TimelineItem)
    ensures t.id == i + 1
  {
    var r := LegacyRowAt(i);
    Legacy(i + 1, r.step, r.task, r.section, r.rnd, r.field)
  }

  /** The fields of the legacy seed task with index `i`. */
  function LegacyRowAt(i: int): LegacyRow {
    match i
    case 0 => LegacyRow("01", "중계기 세팅", "구축 및 설치", "completed", "completed")
    case 1 => LegacyRow("02", "VPN 세팅", "구축 및 설치", "completed", "completed")
    case 2 => LegacyRow("03", "포트포워딩 세팅", "구축 및 설치", "completed", "completed")
    case 3 => LegacyRow("04", "네트워크 서버 설치", "구축 및 설치", "completed", "completed")
    case 4 => LegacyRow("05", "IP 할당", "구축 및 설치", "completed", "completed")
    case 5 => LegacyRow("06", "운영서버 설치", "구축 및 설치", "completed", "completed")
    case 6 => LegacyRow("07", "도면 세팅", "구축 및 설치", "completed", "completed")
    case 7 => LegacyRow("08", "비콘 데이터 대시보드 등록", "구축 및 설치", "completed", "completed")
    case 8 => LegacyRow("09", "알리고 세팅", "구축 및 설치", "completed", "completed")
    case 9 => LegacyRow("10", "트래커 EUI LIST 확인", "구축 및 설치", "completed", "completed")
    case 10 => LegacyRow("11", "비콘 설치", "구축 및 설치", "pending", "completed")
    case 11 => LegacyRow("12", "지오 펜스 & 셀 플래닝 대시보드 적용", "구축 및 설치", "pending", "completed")
    case 12 => LegacyRow("13", "트래커 스마트 워치 MAC 매핑", "구축 및 설치", "completed", "completed")
    case 13 => LegacyRow("14", "스마트 워치 APK 설치", "구축 및 설치", "completed", "completed")
    case 14 => LegacyRow("15", "고정형 검침기 데이타 확인", "대시보드 필드 테스트", "pending", "pending")
    case 15 => LegacyRow("16", "이동형 검침기 데이타 확인", "대시보드 필드 테스트", "completed", "completed")
    case 16 => LegacyRow("17", "스마트워치 데이타 확인", "대시보드 필드 테스트", "completed", "completed")
    case 17 => LegacyRow("18", "점검 리스트 확인", "준공 및 문서", "working", "working")
    case 18 => LegacyRow("19", "준공 문서 제출", "준공 및 문서", "pending", "pending")
    case 19 => LegacyRow("20", "매뉴얼 문서 작업", "준공 및 문서", "pending", "pending")
    case _ => LegacyRow("", "", "", "pending", "pending")
  }

  /** `getInitialTimeline()` of src/lib/storage.js: 20 tasks with `rnd`/`field` statuses. */
  function LegacyTimeline(): seq<TimelineItem> {
    seq(20, i requires 0 <= i < 20 => LegacyTask(i))
  }

  /** `getInitialData().sites` of src/lib/storage.js: the single site `anyang-bakdal`. */
  function LegacySites(): seq<RawSite> {
    [RawSite("anyang-bakdal", "안양 박달 사업소", LegacyTimeline(), Some(InitialChecklist()))]
  }
}
