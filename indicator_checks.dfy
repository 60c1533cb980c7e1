/** The fixed evidence-completeness configuration of the W19/2568 induction
    assessment: three domains of indicators, each indicator a list of
    weighted evidence checks, the completeness thresholds, and the slide
    templates shown in each assessment round. */
module IndicatorChecks {
  import opened Common

  // ---------------------------------------------------------------
  // Types
  // ---------------------------------------------------------------

  /** The kinds of evidence a check accepts. */
  datatype EvidenceType =
    | Document | Video | Audio | TranscriptEvidence | Image | Form
    | Certificate | Link | Text | Checklist | AnyType

  /** One weighted check; the weights of an indicator's checks add up to
      100.  Its label is looked up by id (`CheckLabel`). */
  datatype EvidenceCheck = EvidenceCheck(
    id: string, weight: nat, evidenceTypes: seq<EvidenceType>, autoDetectable: bool)
  {
    function Label(): string { CheckLabel(id) }
  }

  /** An indicator and its checks; its display name is `IndicatorName(id)`. */
  datatype IndicatorChecks = IndicatorChecks(id: string, checks: seq<EvidenceCheck>) {
    function Name(): string { IndicatorName(id) }
  }

  /** A domain and its indicators; its display name is `DomainName(id)`. */
  datatype DomainChecks = DomainChecks(id: string, items: seq<IndicatorChecks>) {
    function Name(): string { DomainName(id) }
  }

  datatype CompletenessStatus = Ready | Draft | Insufficient {
    /** The column value. */
    function Name(): string {
      match this
      case Ready => "READY"
      case Draft => "DRAFT"
      case Insufficient => "INSUFFICIENT"
    }
    /** 0 for INSUFFICIENT up to 2 for READY. */
    function Rank(): nat {
      match this
      case Insufficient => 0
      case Draft => 1
      case Ready => 2
    }
  }

  // ---------------------------------------------------------------
  // Thresholds
  // ---------------------------------------------------------------

  /** READY from 80, DRAFT from 50, INSUFFICIENT below. */
  function GetCompletenessStatus(score: int): (s: CompletenessStatus)
    ensures s == Ready <==> score >= 80
    ensures s == Draft <==> 50 <= score < 80
    ensures s == Insufficient <==> score < 50
  {
    if score >= 80 then Ready
    else if score >= 50 then Draft
    else Insufficient
  }

  /** A higher score never gets a worse status. */
  lemma StatusMonotone(a: int, b: int)
    requires a <= b
    ensures GetCompletenessStatus(a).Rank() <= GetCompletenessStatus(b).Rank()
  {
  }

  const StatusLabels: map<CompletenessStatus, string> :=
    map[Ready := "พร้อมนำเสนอ", Draft := "ฉบับร่าง", Insufficient := "ยังไม่เพียงพอ"]

  // ---------------------------------------------------------------
  // The configuration
  // ---------------------------------------------------------------

  // The configuration's labels and names are kept apart from its
  // structure (one lookup per kind of text), so that reasoning about ids,
  // weights and counts never has to look at the text.

  /** The label of each check, by check id. */
  function CheckLabel(id: string): string {
    if id == "CURR_ANALYSIS_DOC" then "มีเอกสารวิเคราะห์หลักสูตร/มาตรฐาน/ตัวชี้วัด"
    else if id == "COURSE_DESC" then "มีคำอธิบายรายวิชา"
    else if id == "UNIT_PLAN" then "มีหน่วยการเรียนรู้ครอบคลุมเนื้อหา"
    else if id == "EVIDENCE_LINKED_SESSION" then "มีหลักฐานเชื่อมกับ session การสอนอย่างน้อย 1 ครั้ง"
    else if id == "LEARNING_DESIGN_DOC" then "มีแผนการจัดการเรียนรู้ที่สอดคล้องกับรายวิชา"
    else if id == "CONTEXT_ALIGNMENT" then "หน่วยการเรียนรู้สอดคล้องกับผู้เรียนและบริบทสถานศึกษา"
    else if id == "STUDENT_ANALYSIS" then "มีผลวิเคราะห์ผู้เรียนเป็นรายบุคคล"
    else if id == "POST_TEACHING_NOTE" then "มีบันทึกหลังสอน"
    else if id == "HAS_SESSION" then "มี session การสอนที่บันทึกเสียง/วิดีโออย่างน้อย 1 ครั้ง"
    else if id == "HAS_TRANSCRIPT" then "มี transcript พร้อม timecode"
    else if id == "AL_SIGNALS" then "พบสัญญาณ Active Learning (คำถาม/มอบหมาย/ทำงานกลุ่ม)"
    else if id == "REFLECTION_NOTE" then "มีสรุปสะท้อนผล/สิ่งที่ปรับปรุง"
    else if id == "MEDIA_SELECTION" then "มีหลักฐานการเลือกและใช้สื่อ/เทคโนโลยีที่สอดคล้องกับกิจกรรม"
    else if id == "MEDIA_EXAMPLES" then "มีตัวอย่างสื่อที่ใช้จริง (ไฟล์/ภาพ/ลิงก์)"
    else if id == "STUDENT_THINKING_SKILLS" then "มีหลักฐานว่าสื่อช่วยให้ผู้เรียนเกิดทักษะการคิด"
    else if id == "ASSESSMENT_TOOLS" then "มีเครื่องมือวัดผลที่หลากหลาย (ข้อสอบ/แบบประเมิน/rubric)"
    else if id == "STANDARD_ALIGNMENT" then "การวัดผลสอดคล้องกับมาตรฐานการเรียนรู้"
    else if id == "SCORE_RECORDS" then "มีร่องรอยการเก็บคะแนน/ผลการเรียน"
    else if id == "CONTINUOUS_IMPROVEMENT" then "มีหลักฐานการนำผลมาพัฒนาผู้เรียนอย่างต่อเนื่อง"
    else if id == "CLASSROOM_ATMOSPHERE" then "มีหลักฐานการจัดบรรยากาศส่งเสริมผู้เรียน"
    else if id == "THINKING_SKILLS_PROMOTE" then "ส่งเสริมกระบวนการคิด ทักษะชีวิต ทักษะการทำงาน"
    else if id == "IT_SKILLS_PROMOTE" then "ส่งเสริมทักษะด้านสารสนเทศ/เทคโนโลยี"
    else if id == "ONLINE_LEARNING" then "มีหลักฐานการจัดการเรียนรู้แบบออนไลน์/ใช้สื่อดิจิทัล"
    else if id == "DIGITAL_TOOLS_USED" then "มีตัวอย่างเครื่องมือดิจิทัลที่ใช้ (Google Classroom, แอพ, คลิป)"
    else if id == "STUDENT_DIGITAL_WORK" then "มีผลงานนักเรียนจากการใช้เทคโนโลยีดิจิทัล"
    else if id == "STUDENT_INFO_SYSTEM" then "มีข้อมูลสารสนเทศของผู้เรียน (ปพ./DMC)"
    else if id == "COURSE_INFO_SYSTEM" then "มีข้อมูลสารสนเทศรายวิชา"
    else if id == "INFO_USAGE_EVIDENCE" then "มีหลักฐานการนำข้อมูลไปใช้ส่งเสริมการเรียนรู้"
    else if id == "STUDENT_CARE_SYSTEM" then "มีหลักฐานดำเนินการตามระบบดูแลช่วยเหลือผู้เรียน"
    else if id == "INDIVIDUAL_DATA" then "ใช้ข้อมูลสารสนเทศผู้เรียนรายบุคคล"
    else if id == "HOME_VISIT" then "มีบันทึกการเยี่ยมบ้าน/ให้คำปรึกษา"
    else if id == "COLLABORATION" then "มีหลักฐานการประสานความร่วมมือกับผู้เกี่ยวข้อง"
    else if id == "FOUR_DEPT_KNOWLEDGE" then "มีความรู้ด้านงาน 4 ฝ่าย (วิชาการ, งบประมาณ, บุคคล, บริหาร)"
    else if id == "PROCUREMENT_KNOWLEDGE" then "เรียนรู้เรื่องจัดซื้อจัดจ้าง การเงิน พัสดุ สารบรรณ"
    else if id == "EDUCATION_LAW" then "มีความรู้ด้านนโยบายและกฎหมายการศึกษา"
    else if id == "WORK_ORDER" then "มีคำสั่งแต่งตั้ง/บันทึกการปฏิบัติงาน"
    else if id == "MENTOR_LEARNING" then "มีหลักฐานการเรียนรู้จากกัลยาณมิตร (Mentor/ครูพี่เลี้ยง)"
    else if id == "OBSERVATION_REPORT" then "มีรายงาน/บันทึกจากการสังเกตการสอน"
    else if id == "MENTOR_APPLY" then "มีหลักฐานการนำมาปรับใช้กับการสอนของตนเอง"
    else if id == "PLC_EVIDENCE" then "มีหลักฐาน PLC (ไฟล์/รูป/บันทึก)"
    else if id == "APPLY_TO_CLASS" then "มีการนำผลไปปรับใช้ในชั้นเรียน (เชื่อมกับ session)"
    else if id == "RESULT_NOTE" then "มีบันทึกผล/บทเรียนหลังปรับใช้"
    else if id == "SELF_DISCIPLINE" then "ยอมรับและปฏิบัติตามกฎ กติกา มารยาท ขนบธรรมเนียม"
    else if id == "DISCIPLINE_EVIDENCE" then "มีหลักฐาน/ผู้ยืนยันพฤติกรรม"
    else if id == "PUNCTUAL_BEHAVIOR" then "ตรงต่อเวลาในการปฏิบัติงาน"
    else if id == "PUNCTUAL_EVIDENCE" then "มีหลักฐาน (สมุดลงเวลา/ระบบสแกน)"
    else if id == "DEDICATE_TIME" then "อุทิศเวลาให้แก่ทางราชการและผู้เรียนอย่างต่อเนื่อง"
    else if id == "DEDICATE_EVIDENCE" then "มีหลักฐาน/บันทึกกิจกรรมนอกเวลา"
    else if id == "STUDENT_CARE" then "เอาใจใส่ช่วยเหลือผู้เรียน/ผู้รับบริการ เต็มความสามารถ สม่ำเสมอ และเท่าเทียม"
    else if id == "STUDENT_CARE_EVIDENCE" then "มีหลักฐาน/บันทึกการช่วยเหลือผู้เรียน"
    else if id == "TEAMWORK" then "รักษาความสามัคคี มีน้ำใจเอื้อเฟื้อเผื่อแผ่ต่อเพื่อนร่วมงาน"
    else if id == "TEAMWORK_EVIDENCE" then "มีหลักฐาน (ภาพถ่าย/บันทึก/ใบรับรอง)"
    else if id == "PUBLIC_SERVICE" then "ช่วยเหลือ/ร่วมมือแก่ส่วนรวมอย่างทุ่มเท เสียสละจนสำเร็จ"
    else if id == "PUBLIC_SERVICE_EVIDENCE" then "มีหลักฐาน/ภาพถ่าย/คำสั่ง"
    else if id == "CULTURE_ACTIVITY_1" then "มีส่วนร่วมกิจกรรมอนุรักษ์วัฒนธรรมไทย/สิ่งแวดล้อม ครั้งที่ 1"
    else if id == "CULTURE_ACTIVITY_2" then "มีส่วนร่วมกิจกรรมอนุรักษ์วัฒนธรรมไทย/สิ่งแวดล้อม ครั้งที่ 2 (อย่างน้อย 2)"
    else if id == "SUFFICIENCY_LIVING" then "ดำรงชีวิตตามหลักปรัชญาของเศรษฐกิจพอเพียง"
    else if id == "SUFFICIENCY_EVIDENCE" then "มีหลักฐานกิจกรรม/โครงการที่เกี่ยวข้อง"
    else if id == "NO_VICE" then "ละเว้นอบายมุขและสิ่งเสพติด"
    else if id == "ANTI_DRUG_CAMPAIGN" then "ร่วมรณรงค์ส่งเสริมผู้อื่น/มีหลักฐาน"
    else if id == "ROLE_MODEL" then "ประพฤติตนเป็นแบบอย่างที่ดีให้กับผู้เรียน"
    else if id == "ROLE_MODEL_EVIDENCE" then "ได้รับการยอมรับจากบุคคลรอบข้าง/หลักฐาน"
    else if id == "PROFESSION_HONOR" then "รักษาชื่อเสียง ปกป้องศักดิ์ศรีวิชาชีพ"
    else if id == "HONOR_CERTIFICATE" then "ได้รับการยกย่องเชิดชูเกียรติอย่างน้อย 1 รายการ"
    else if id == "THAI_TRAINING" then "อบรม/พัฒนาทักษะภาษาไทย อย่างน้อย 1 หลักสูตร"
    else if id == "ENG_TRAINING" then "อบรม/พัฒนาทักษะภาษาอังกฤษ อย่างน้อย 1 หลักสูตร"
    else if id == "DIGITAL_TRAINING" then "อบรม/พัฒนาทักษะเทคโนโลยีดิจิทัลเพื่อการศึกษา"
    else if id == "DIGITAL_OUTPUT" then "มีผลงานจากการใช้เทคโนโลยี"
    else if id == "FINANCE_TRAINING" then "เข้ารับการพัฒนาด้านการวางแผนการเงิน/วินัยทางการเงิน"
    else if id == "FINANCE_PLAN" then "มีแผนการออม/วางแผนการเงิน (ถ้ามี)"
    else if id == "HEALTH_ACTIVITY" then "เข้าร่วมกิจกรรมกีฬา/นันทนาการ/ธรรมะ"
    else if id == "HEALTH_CHECK" then "ผลการตรวจสุขภาพประจำปี/หลักฐานดูแลสุขภาพ"
    else ""
  }

  /** The display name of each indicator, by indicator id. */
  function IndicatorName(id: string): string {
    if id == "PRO_1.1" then "1.1 การวิเคราะห์หลักสูตร"
    else if id == "PRO_1.2" then "1.2 การออกแบบการจัดการเรียนรู้"
    else if id == "PRO_1.3" then "1.3 การจัดกิจกรรมการเรียนรู้ (Active Learning)"
    else if id == "PRO_1.4" then "1.4 การเลือกและใช้สื่อ เทคโนโลยี"
    else if id == "PRO_1.5" then "1.5 การวัดและประเมินผล"
    else if id == "PRO_1.6" then "1.6 การจัดบรรยากาศ"
    else if id == "PRO_1.7" then "1.7 การใช้เทคโนโลยีดิจิทัล"
    else if id == "PRO_2.1" then "2.1 การจัดทำข้อมูลสารสนเทศ"
    else if id == "PRO_2.2" then "2.2 ระบบดูแลช่วยเหลือผู้เรียน"
    else if id == "PRO_2.3" then "2.3 กฎหมายและระเบียบปฏิบัติ"
    else if id == "SOC_1" then "การเรียนรู้จากกัลยาณมิตร"
    else if id == "SOC_2" then "การเรียนรู้เป็นเครือข่าย (PLC)"
    else if id == "PER_1.1" then "มีวินัยในตนเอง"
    else if id == "PER_1.2" then "ตรงต่อเวลา"
    else if id == "PER_1.3" then "อุทิศเวลาให้แก่ทางราชการและผู้เรียน"
    else if id == "PER_1.4" then "เอาใจใส่ช่วยเหลือผู้เรียน"
    else if id == "PER_1.5" then "รักษาความสามัคคี"
    else if id == "PER_1.6" then "ช่วยเหลือ/ร่วมมือแก่ส่วนรวม"
    else if id == "PER_1.7" then "อนุรักษ์วัฒนธรรมไทยและสิ่งแวดล้อม"
    else if id == "PER_1.8" then "ดำรงชีวิตตามหลักปรัชญาเศรษฐกิจพอเพียง"
    else if id == "PER_1.9" then "ละเว้นอบายมุขและสิ่งเสพติด"
    else if id == "PER_1.10" then "ประพฤติตนเป็นแบบอย่างที่ดี"
    else if id == "PER_1.11" then "รักษาชื่อเสียง ปกป้องศักดิ์ศรีวิชาชีพ"
    else if id == "PER_2.1" then "ภาษาไทยและอังกฤษ"
    else if id == "PER_2.2" then "เทคโนโลยีดิจิทัล"
    else if id == "PER_2.3" then "การเงิน"
    else if id == "PER_2.4" then "สุขภาพ"
    else ""
  }

  /** The display name of each domain, by domain id. */
  function DomainName(id: string): string {
    if id == "PROFESSIONAL" then "ด้านวิชาชีพ"
    else if id == "SOCIAL" then "ด้านสังคม"
    else if id == "PERSONAL" then "ด้านคุณลักษณะส่วนบุคคล"
    else ""
  }

  const ConfigVersion := "w19_2568_v1"

  const Pro1_1: IndicatorChecks := IndicatorChecks("PRO_1.1", Pro1_1Checks)
  const Pro1_1Checks: seq<EvidenceCheck> := [
    EvidenceCheck("CURR_ANALYSIS_DOC", 25, [Document], false),
    EvidenceCheck("COURSE_DESC", 25, [Document], false),
    EvidenceCheck("UNIT_PLAN", 25, [Document], false),
    EvidenceCheck("EVIDENCE_LINKED_SESSION", 25, [Video, Audio, Link], true)]
  const Pro1_2: IndicatorChecks := IndicatorChecks("PRO_1.2", Pro1_2Checks)
  const Pro1_2Checks: seq<EvidenceCheck> := [
    EvidenceCheck("LEARNING_DESIGN_DOC", 25, [Document], false),
    EvidenceCheck("CONTEXT_ALIGNMENT", 25, [Document, Text], false),
    EvidenceCheck("STUDENT_ANALYSIS", 25, [Document, Form], false),
    EvidenceCheck("POST_TEACHING_NOTE", 25, [Document, Text, Form], true)]
  const Pro1_3: IndicatorChecks := IndicatorChecks("PRO_1.3", Pro1_3Checks)
  const Pro1_3Checks: seq<EvidenceCheck> := [
    EvidenceCheck("HAS_SESSION", 25, [Video, Audio], true),
    EvidenceCheck("HAS_TRANSCRIPT", 25, [TranscriptEvidence], true),
    EvidenceCheck("AL_SIGNALS", 25, [TranscriptEvidence], true),
    EvidenceCheck("REFLECTION_NOTE", 25, [Text, Form], true)]
  const Pro1_4: IndicatorChecks := IndicatorChecks("PRO_1.4", Pro1_4Checks)
  const Pro1_4Checks: seq<EvidenceCheck> := [
    EvidenceCheck("MEDIA_SELECTION", 30, [Document, Image, Link], false),
    EvidenceCheck("MEDIA_EXAMPLES", 35, [Document, Image, Link, Video], false),
    EvidenceCheck("STUDENT_THINKING_SKILLS", 35, [Document, Image, Text], false)]
  const Pro1_5: IndicatorChecks := IndicatorChecks("PRO_1.5", Pro1_5Checks)
  const Pro1_5Checks: seq<EvidenceCheck> := [
    EvidenceCheck("ASSESSMENT_TOOLS", 30, [Document], false),
    EvidenceCheck("STANDARD_ALIGNMENT", 30, [Document, Text], false),
    EvidenceCheck("SCORE_RECORDS", 20, [Document, Form], false),
    EvidenceCheck("CONTINUOUS_IMPROVEMENT", 20, [Document, Text], false)]
  const Pro1_6: IndicatorChecks := IndicatorChecks("PRO_1.6", Pro1_6Checks)
  const Pro1_6Checks: seq<EvidenceCheck> := [
    EvidenceCheck("CLASSROOM_ATMOSPHERE", 35, [Image, Video], false),
    EvidenceCheck("THINKING_SKILLS_PROMOTE", 35, [Document, Image, Text], false),
    EvidenceCheck("IT_SKILLS_PROMOTE", 30, [Image, Document, Link], false)]
  const Pro1_7: IndicatorChecks := IndicatorChecks("PRO_1.7", Pro1_7Checks)
  const Pro1_7Checks: seq<EvidenceCheck> := [
    EvidenceCheck("ONLINE_LEARNING", 40, [Link, Image, Document], false),
    EvidenceCheck("DIGITAL_TOOLS_USED", 30, [Link, Image], false),
    EvidenceCheck("STUDENT_DIGITAL_WORK", 30, [Document, Image, Link], false)]
  const Pro2_1: IndicatorChecks := IndicatorChecks("PRO_2.1", Pro2_1Checks)
  const Pro2_1Checks: seq<EvidenceCheck> := [
    EvidenceCheck("STUDENT_INFO_SYSTEM", 35, [Document, Form, Link], false),
    EvidenceCheck("COURSE_INFO_SYSTEM", 30, [Document, Form], false),
    EvidenceCheck("INFO_USAGE_EVIDENCE", 35, [Document, Text], false)]
  const Pro2_2: IndicatorChecks := IndicatorChecks("PRO_2.2", Pro2_2Checks)
  const Pro2_2Checks: seq<EvidenceCheck> := [
    EvidenceCheck("STUDENT_CARE_SYSTEM", 30, [Document, Form], false),
    EvidenceCheck("INDIVIDUAL_DATA", 25, [Document, Form], false),
    EvidenceCheck("HOME_VISIT", 25, [Document, Form, Image], false),
    EvidenceCheck("COLLABORATION", 20, [Document, Form, Image], false)]
  const Pro2_3: IndicatorChecks := IndicatorChecks("PRO_2.3", Pro2_3Checks)
  const Pro2_3Checks: seq<EvidenceCheck> := [
    EvidenceCheck("FOUR_DEPT_KNOWLEDGE", 25, [Document, Certificate, Text], false),
    EvidenceCheck("PROCUREMENT_KNOWLEDGE", 25, [Document, Certificate], false),
    EvidenceCheck("EDUCATION_LAW", 25, [Document, Certificate, Text], false),
    EvidenceCheck("WORK_ORDER", 25, [Document], false)]
  const Soc1: IndicatorChecks := IndicatorChecks("SOC_1", Soc1Checks)
  const Soc1Checks: seq<EvidenceCheck> := [
    EvidenceCheck("MENTOR_LEARNING", 30, [Document, Form, Image], true),
    EvidenceCheck("OBSERVATION_REPORT", 35, [Document, Form], true),
    EvidenceCheck("MENTOR_APPLY", 35, [Text, Document], true)]
  const Soc2: IndicatorChecks := IndicatorChecks("SOC_2", Soc2Checks)
  const Soc2Checks: seq<EvidenceCheck> := [
    EvidenceCheck("PLC_EVIDENCE", 34, [Document, Form, Image], true),
    EvidenceCheck("APPLY_TO_CLASS", 33, [Text, Document, Link], false),
    EvidenceCheck("RESULT_NOTE", 33, [Text, Document], true)]
  const Per1_1: IndicatorChecks := IndicatorChecks("PER_1.1", Per1_1Checks)
  const Per1_1Checks: seq<EvidenceCheck> := [
    EvidenceCheck("SELF_DISCIPLINE", 50, [Checklist], false),
    EvidenceCheck("DISCIPLINE_EVIDENCE", 50, [Checklist, Document], false)]
  const Per1_2: IndicatorChecks := IndicatorChecks("PER_1.2", Per1_2Checks)
  const Per1_2Checks: seq<EvidenceCheck> := [
    EvidenceCheck("PUNCTUAL_BEHAVIOR", 50, [Checklist], false),
    EvidenceCheck("PUNCTUAL_EVIDENCE", 50, [Checklist, Document], false)]
  const Per1_3: IndicatorChecks := IndicatorChecks("PER_1.3", Per1_3Checks)
  const Per1_3Checks: seq<EvidenceCheck> := [
    EvidenceCheck("DEDICATE_TIME", 50, [Checklist], false),
    EvidenceCheck("DEDICATE_EVIDENCE", 50, [Checklist, Document, Image], false)]
  const Per1_4: IndicatorChecks := IndicatorChecks("PER_1.4", Per1_4Checks)
  const Per1_4Checks: seq<EvidenceCheck> := [
    EvidenceCheck("STUDENT_CARE", 50, [Checklist], false),
    EvidenceCheck("STUDENT_CARE_EVIDENCE", 50, [Checklist, Document, Form], false)]
  const Per1_5: IndicatorChecks := IndicatorChecks("PER_1.5", Per1_5Checks)
  const Per1_5Checks: seq<EvidenceCheck> := [
    EvidenceCheck("TEAMWORK", 50, [Checklist], false),
    EvidenceCheck("TEAMWORK_EVIDENCE", 50, [Checklist, Image, Document], false)]
  const Per1_6: IndicatorChecks := IndicatorChecks("PER_1.6", Per1_6Checks)
  const Per1_6Checks: seq<EvidenceCheck> := [
    EvidenceCheck("PUBLIC_SERVICE", 50, [Checklist], false),
    EvidenceCheck("PUBLIC_SERVICE_EVIDENCE", 50, [Checklist, Image, Document], false)]
  const Per1_7: IndicatorChecks := IndicatorChecks("PER_1.7", Per1_7Checks)
  const Per1_7Checks: seq<EvidenceCheck> := [
    EvidenceCheck("CULTURE_ACTIVITY_1", 50, [Image, Document, Certificate], false),
    EvidenceCheck("CULTURE_ACTIVITY_2", 50, [Image, Document, Certificate], false)]
  const Per1_8: IndicatorChecks := IndicatorChecks("PER_1.8", Per1_8Checks)
  const Per1_8Checks: seq<EvidenceCheck> := [
    EvidenceCheck("SUFFICIENCY_LIVING", 50, [Checklist], false),
    EvidenceCheck("SUFFICIENCY_EVIDENCE", 50, [Checklist, Image, Document], false)]
  const Per1_9: IndicatorChecks := IndicatorChecks("PER_1.9", Per1_9Checks)
  const Per1_9Checks: seq<EvidenceCheck> := [
    EvidenceCheck("NO_VICE", 50, [Checklist], false),
    EvidenceCheck("ANTI_DRUG_CAMPAIGN", 50, [Checklist, Image, Document], false)]
  const Per1_10: IndicatorChecks := IndicatorChecks("PER_1.10", Per1_10Checks)
  const Per1_10Checks: seq<EvidenceCheck> := [
    EvidenceCheck("ROLE_MODEL", 50, [Checklist], false),
    EvidenceCheck("ROLE_MODEL_EVIDENCE", 50, [Checklist, Document], false)]
  const Per1_11: IndicatorChecks := IndicatorChecks("PER_1.11", Per1_11Checks)
  const Per1_11Checks: seq<EvidenceCheck> := [
    EvidenceCheck("PROFESSION_HONOR", 50, [Checklist], false),
    EvidenceCheck("HONOR_CERTIFICATE", 50, [Certificate, Document], false)]
  const Per2_1: IndicatorChecks := IndicatorChecks("PER_2.1", Per2_1Checks)
  const Per2_1Checks: seq<EvidenceCheck> := [
    EvidenceCheck("THAI_TRAINING", 50, [Certificate, Document], false),
    EvidenceCheck("ENG_TRAINING", 50, [Certificate, Document], false)]
  const Per2_2: IndicatorChecks := IndicatorChecks("PER_2.2", Per2_2Checks)
  const Per2_2Checks: seq<EvidenceCheck> := [
    EvidenceCheck("DIGITAL_TRAINING", 50, [Certificate, Document], false),
    EvidenceCheck("DIGITAL_OUTPUT", 50, [Document, Link, Image], false)]
  const Per2_3: IndicatorChecks := IndicatorChecks("PER_2.3", Per2_3Checks)
  const Per2_3Checks: seq<EvidenceCheck> := [
    EvidenceCheck("FINANCE_TRAINING", 50, [Certificate, Document], false),
    EvidenceCheck("FINANCE_PLAN", 50, [Document, Text], false)]
  const Per2_4: IndicatorChecks := IndicatorChecks("PER_2.4", Per2_4Checks)
  const Per2_4Checks: seq<EvidenceCheck> := [
    EvidenceCheck("HEALTH_ACTIVITY", 50, [Certificate, Image, Document], false),
    EvidenceCheck("HEALTH_CHECK", 50, [Document, Certificate], false)]

  const Professional: DomainChecks := DomainChecks("PROFESSIONAL",
    [Pro1_1, Pro1_2, Pro1_3, Pro1_4, Pro1_5, Pro1_6, Pro1_7, Pro2_1, Pro2_2, Pro2_3])
  const Social: DomainChecks := DomainChecks("SOCIAL",
    [Soc1, Soc2])
  const Personal: DomainChecks := DomainChecks("PERSONAL",
    [Per1_1, Per1_2, Per1_3, Per1_4, Per1_5, Per1_6, Per1_7, Per1_8, Per1_9, Per1_10, Per1_11, Per2_1, Per2_2, Per2_3, Per2_4])

  const Domains: seq<DomainChecks> := [Professional, Social, Personal]

  /** Every indicator id of the configuration, domain by domain, in order. */
  function AllIds(domains: seq<DomainChecks>): seq<string> {
    if domains == [] then []
    else ItemIds(domains[0].items) + AllIds(domains[1..])
  }

  function ItemIds(items: seq<IndicatorChecks>): (r: seq<string>)
    ensures |r| == |items| && forall i :: 0 <= i < |items| ==> r[i] == items[i].id
  {
    if items == [] then [] else [items[0].id] + ItemIds(items[1..])
  }

  function WeightSum(checks: seq<EvidenceCheck>): nat {
    if checks == [] then 0 else checks[0].weight + WeightSum(checks[1..])
  }

  predicate WeighsHundred(ind: IndicatorChecks) {
    WeightSum(ind.checks) == 100
  }

  /** The weights of every indicator's checks add up to exactly 100. */
  lemma ConfigWeightsSumTo100()
    ensures forall k, i :: 0 <= k < |Domains| && 0 <= i < |Domains[k].items| ==>
              WeighsHundred(Domains[k].items[i])
  {
    ProfessionalWeights();
    SocialWeights();
    PersonalWeights();
  }

  lemma ProfessionalWeights()
    ensures forall i :: 0 <= i < |Professional.items| ==> WeighsHundred(Professional.items[i])
  {
    Pro1_1Weights(); Pro1_2Weights(); Pro1_3Weights(); Pro1_4Weights(); Pro1_5Weights(); Pro1_6Weights(); Pro1_7Weights(); Pro2_1Weights(); Pro2_2Weights(); Pro2_3Weights();
  }

  lemma SocialWeights()
    ensures forall i :: 0 <= i < |Social.items| ==> WeighsHundred(Social.items[i])
  {
    Soc1Weights(); Soc2Weights();
  }

  lemma PersonalWeights()
    ensures forall i :: 0 <= i < |Personal.items| ==> WeighsHundred(Personal.items[i])
  {
    Per1_1Weights(); Per1_2Weights(); Per1_3Weights(); Per1_4Weights(); Per1_5Weights(); Per1_6Weights(); Per1_7Weights(); Per1_8Weights(); Per1_9Weights(); Per1_10Weights(); Per1_11Weights(); Per2_1Weights(); Per2_2Weights(); Per2_3Weights(); Per2_4Weights();
  }

  lemma Pro1_1Weights() ensures WeighsHundred(Pro1_1) { }
  lemma Pro1_2Weights() ensures WeighsHundred(Pro1_2) { }
  lemma Pro1_3Weights() ensures WeighsHundred(Pro1_3) { }
  lemma Pro1_4Weights() ensures WeighsHundred(Pro1_4) { }
  lemma Pro1_5Weights() ensures WeighsHundred(Pro1_5) { }
  lemma Pro1_6Weights() ensures WeighsHundred(Pro1_6) { }
  lemma Pro1_7Weights() ensures WeighsHundred(Pro1_7) { }
  lemma Pro2_1Weights() ensures WeighsHundred(Pro2_1) { }
  lemma Pro2_2Weights() ensures WeighsHundred(Pro2_2) { }
  lemma Pro2_3Weights() ensures WeighsHundred(Pro2_3) { }
  lemma Soc1Weights() ensures WeighsHundred(Soc1) { }
  lemma Soc2Weights() ensures WeighsHundred(Soc2) { }
  lemma Per1_1Weights() ensures WeighsHundred(Per1_1) { }
  lemma Per1_2Weights() ensures WeighsHundred(Per1_2) { }
  lemma Per1_3Weights() ensures WeighsHundred(Per1_3) { }
  lemma Per1_4Weights() ensures WeighsHundred(Per1_4) { }
  lemma Per1_5Weights() ensures WeighsHundred(Per1_5) { }
  lemma Per1_6Weights() ensures WeighsHundred(Per1_6) { }
  lemma Per1_7Weights() ensures WeighsHundred(Per1_7) { }
  lemma Per1_8Weights() ensures WeighsHundred(Per1_8) { }
  lemma Per1_9Weights() ensures WeighsHundred(Per1_9) { }
  lemma Per1_10Weights() ensures WeighsHundred(Per1_10) { }
  lemma Per1_11Weights() ensures WeighsHundred(Per1_11) { }
  lemma Per2_1Weights() ensures WeighsHundred(Per2_1) { }
  lemma Per2_2Weights() ensures WeighsHundred(Per2_2) { }
  lemma Per2_3Weights() ensures WeighsHundred(Per2_3) { }
  lemma Per2_4Weights() ensures WeighsHundred(Per2_4) { }

  /** The id list the configuration defines. */
  const ProfessionalIds: seq<string> :=
    ["PRO_1.1", "PRO_1.2", "PRO_1.3", "PRO_1.4", "PRO_1.5", "PRO_1.6", "PRO_1.7",
     "PRO_2.1", "PRO_2.2", "PRO_2.3"]
  const SocialIds: seq<string> := ["SOC_1", "SOC_2"]
  const PersonalIds: seq<string> :=
    ["PER_1.1", "PER_1.2", "PER_1.3", "PER_1.4", "PER_1.5", "PER_1.6", "PER_1.7",
     "PER_1.8", "PER_1.9", "PER_1.10", "PER_1.11", "PER_2.1", "PER_2.2", "PER_2.3", "PER_2.4"]

  /** 10 PROFESSIONAL, 2 SOCIAL and 15 PERSONAL indicators, all ids distinct. */
  lemma ConfigShape()
    ensures |Professional.items| == 10 && |Social.items| == 2 && |Personal.items| == 15
    ensures AllIds(Domains) == ProfessionalIds + SocialIds + PersonalIds
    ensures NoDuplicates(AllIds(Domains))
  {
    AllIdsShape();
    ConfigIdsDistinct();
  }

  lemma AllIdsShape()
    ensures AllIds(Domains) == ProfessionalIds + SocialIds + PersonalIds
  {
    ProfessionalShape();
    SocialShape();
    PersonalShape();
    assert Domains[1..][1..] == [Personal];
    assert AllIds([Personal]) == ItemIds(Personal.items) + AllIds([]);
    assert AllIds(Domains[1..]) == ItemIds(Social.items) + AllIds([Personal]);
  }

  lemma ConfigIdsDistinct()
    ensures NoDuplicates(ProfessionalIds + SocialIds + PersonalIds)
  {
    var ids := ProfessionalIds + SocialIds + PersonalIds;
    forall i, j | 0 <= i < j < |ids|
      ensures ids[i] != ids[j]
    {
      DistinctIds(ids, i, j);
    }
  }

  lemma ProfessionalShape()
    ensures ItemIds(Professional.items) == ProfessionalIds
  {
    ProfessionalIdsAt0(); ProfessionalIdsAt2(); ProfessionalIdsAt4(); ProfessionalIdsAt6(); ProfessionalIdsAt8();
  }

  lemma ProfessionalIdsAt0()
    ensures forall i :: 0 <= i < 2 ==> ItemIds(Professional.items)[i] == ProfessionalIds[i]
  {
    assert ItemIds(Professional.items)[0] == ProfessionalIds[0];
    assert ItemIds(Professional.items)[1] == ProfessionalIds[1];
  }

  lemma ProfessionalIdsAt2()
    ensures forall i :: 2 <= i < 4 ==> ItemIds(Professional.items)[i] == ProfessionalIds[i]
  {
    assert ItemIds(Professional.items)[2] == ProfessionalIds[2];
    assert ItemIds(Professional.items)[3] == ProfessionalIds[3];
  }

  lemma ProfessionalIdsAt4()
    ensures forall i :: 4 <= i < 6 ==> ItemIds(Professional.items)[i] == ProfessionalIds[i]
  {
    assert ItemIds(Professional.items)[4] == ProfessionalIds[4];
    assert ItemIds(Professional.items)[5] == ProfessionalIds[5];
  }

  lemma ProfessionalIdsAt6()
    ensures forall i :: 6 <= i < 8 ==> ItemIds(Professional.items)[i] == ProfessionalIds[i]
  {
    assert ItemIds(Professional.items)[6] == ProfessionalIds[6];
    assert ItemIds(Professional.items)[7] == ProfessionalIds[7];
  }

  lemma ProfessionalIdsAt8()
    ensures forall i :: 8 <= i < 10 ==> ItemIds(Professional.items)[i] == ProfessionalIds[i]
  {
    assert ItemIds(Professional.items)[8] == ProfessionalIds[8];
    assert ItemIds(Professional.items)[9] == ProfessionalIds[9];
  }

  lemma SocialShape()
    ensures ItemIds(Social.items) == SocialIds
  {
    SocialIdsAt0();
  }

  lemma SocialIdsAt0()
    ensures forall i :: 0 <= i < 2 ==> ItemIds(Social.items)[i] == SocialIds[i]
  {
    assert ItemIds(Social.items)[0] == SocialIds[0];
    assert ItemIds(Social.items)[1] == SocialIds[1];
  }

  lemma PersonalShape()
    ensures ItemIds(Personal.items) == PersonalIds
  {
    PersonalIdsAt0(); PersonalIdsAt2(); PersonalIdsAt4(); PersonalIdsAt6(); PersonalIdsAt8(); PersonalIdsAt10(); PersonalIdsAt12(); PersonalIdsAt14();
  }

  lemma PersonalIdsAt0()
    ensures forall i :: 0 <= i < 2 ==> ItemIds(Personal.items)[i] == PersonalIds[i]
  {
    assert ItemIds(Personal.items)[0] == PersonalIds[0];
    assert ItemIds(Personal.items)[1] == PersonalIds[1];
  }

  lemma PersonalIdsAt2()
    ensures forall i :: 2 <= i < 4 ==> ItemIds(Personal.items)[i] == PersonalIds[i]
  {
    assert ItemIds(Personal.items)[2] == PersonalIds[2];
    assert ItemIds(Personal.items)[3] == PersonalIds[3];
  }

  lemma PersonalIdsAt4()
    ensures forall i :: 4 <= i < 6 ==> ItemIds(Personal.items)[i] == PersonalIds[i]
  {
    assert ItemIds(Personal.items)[4] == PersonalIds[4];
    assert ItemIds(Personal.items)[5] == PersonalIds[5];
  }

  lemma PersonalIdsAt6()
    ensures forall i :: 6 <= i < 8 ==> ItemIds(Personal.items)[i] == PersonalIds[i]
  {
    assert ItemIds(Personal.items)[6] == PersonalIds[6];
    assert ItemIds(Personal.items)[7] == PersonalIds[7];
  }

  lemma PersonalIdsAt8()
    ensures forall i :: 8 <= i < 10 ==> ItemIds(Personal.items)[i] == PersonalIds[i]
  {
    assert ItemIds(Personal.items)[8] == PersonalIds[8];
    assert ItemIds(Personal.items)[9] == PersonalIds[9];
  }

  lemma PersonalIdsAt10()
    ensures forall i :: 10 <= i < 12 ==> ItemIds(Personal.items)[i] == PersonalIds[i]
  {
    assert ItemIds(Personal.items)[10] == PersonalIds[10];
    assert ItemIds(Personal.items)[11] == PersonalIds[11];
  }

  lemma PersonalIdsAt12()
    ensures forall i :: 12 <= i < 14 ==> ItemIds(Personal.items)[i] == PersonalIds[i]
  {
    assert ItemIds(Personal.items)[12] == PersonalIds[12];
    assert ItemIds(Personal.items)[13] == PersonalIds[13];
  }

  lemma PersonalIdsAt14()
    ensures forall i :: 14 <= i < 15 ==> ItemIds(Personal.items)[i] == PersonalIds[i]
  {
    assert ItemIds(Personal.items)[14] == PersonalIds[14];
  }

  /** Two configuration ids at different positions differ: they differ in
      length or in one of the characters at positions 2, 4, 6 and 7. */
  lemma DistinctIds(ids: seq<string>, i: nat, j: nat)
    requires ids == ProfessionalIds + SocialIds + PersonalIds
    requires i < j < |ids|
    ensures ids[i] != ids[j]
  {
    var a, b := ids[i], ids[j];
    if |a| == |b| && |a| == 7 {
      assert a[2] != b[2] || a[4] != b[4] || a[6] != b[6];
    } else if |a| == |b| && |a| == 8 {
      assert a[7] != b[7];
    } else if |a| == |b| {
      assert a[4] != b[4];
    }
  }

  // ---------------------------------------------------------------
  // Lookups
  // ---------------------------------------------------------------

  predicate Lists(domains: seq<DomainChecks>, id: string) {
    exists k, i :: 0 <= k < |domains| && 0 <= i < |domains[k].items| && domains[k].items[i].id == id
  }

  /** `items.find(item => item.id === id)`. */
  function FindItem(items: seq<IndicatorChecks>, id: string): (r: Option<IndicatorChecks>)
    ensures r.Some? ==> r.value in items && r.value.id == id
    ensures r.None? <==> forall i :: 0 <= i < |items| ==> items[i].id != id
  {
    if items == [] then None
    else if items[0].id == id then Some(items[0])
    else FindItem(items[1..], id)
  }

  /** The first domain, in order, holding an item with the given id, and that item. */
  function FindIndicator(domains: seq<DomainChecks>, id: string): (r: Option<IndicatorChecks>)
    ensures r.Some? ==> r.value.id == id
    ensures r.None? <==> !Lists(domains, id)
  {
    if domains == [] then None
    else
      var found := FindItem(domains[0].items, id);
      if found.Some? then found
      else
        var rest := FindIndicator(domains[1..], id);
        assert Lists(domains, id) ==> Lists(domains[1..], id) by {
          if Lists(domains, id) {
            var k, i :| 0 <= k < |domains| && 0 <= i < |domains[k].items| && domains[k].items[i].id == id;
            assert k > 0;
            assert domains[1..][k - 1].items[i].id == id;
          }
        }
        assert Lists(domains[1..], id) ==> Lists(domains, id) by {
          if Lists(domains[1..], id) {
            var k, i :| 0 <= k < |domains[1..]| && 0 <= i < |domains[1..][k].items| && domains[1..][k].items[i].id == id;
            assert domains[k + 1].items[i].id == id;
          }
        }
        rest
  }

  function FindDomain(domains: seq<DomainChecks>, id: string): (r: Option<DomainChecks>)
    ensures r.Some? ==> r.value in domains && FindItem(r.value.items, id).Some?
  {
    if domains == [] then None
    else if FindItem(domains[0].items, id).Some? then Some(domains[0])
    else FindDomain(domains[1..], id)
  }

  /** Both lookups succeed together, and the item found belongs to the
      domain found. */
  lemma {:induction false} LookupsAgree(domains: seq<DomainChecks>, id: string)
    ensures FindIndicator(domains, id).Some? <==> FindDomain(domains, id).Some?
    ensures FindDomain(domains, id).Some? ==>
              FindIndicator(domains, id).value in FindDomain(domains, id).value.items
    decreases |domains|
  {
    if domains != [] && FindItem(domains[0].items, id).None? {
      LookupsAgree(domains[1..], id);
    }
  }

  /** `getIndicatorChecks`. */
  function GetIndicatorChecks(id: string): Option<IndicatorChecks> {
    FindIndicator(Domains, id)
  }

  /** `getDomainForIndicator`. */
  function GetDomainForIndicator(id: string): Option<DomainChecks> {
    FindDomain(Domains, id)
  }

  // ---------------------------------------------------------------
  // Slide templates
  // ---------------------------------------------------------------

  datatype SlideKind = CoverSlide | OverviewSlide | DomainSlide | IndicatorSlide | ChecklistSlide | SummarySlide

  /** A slide template; its title is `SlideName(id)`. */
  datatype SlideTemplate = SlideTemplate(
    id: string, indicatorIds: seq<string>, kind: SlideKind, assessmentRounds: seq<int>)
  {
    function Name(): string { SlideName(id) }
  }

  function SlideName(id: string): string {
    if id == "SLIDE_COVER" then "หน้าปก"
    else if id == "SLIDE_OVERVIEW" then "ภาพรวมความสมบูรณ์ 3 ด้าน"
    else if id == "SLIDE_PRO_OVERVIEW" then "ด้านวิชาชีพ: ภาพรวม"
    else if id == "SLIDE_PRO_1_1" then "1.1 การวิเคราะห์หลักสูตร"
    else if id == "SLIDE_PRO_1_2" then "1.2 การออกแบบการจัดการเรียนรู้"
    else if id == "SLIDE_PRO_1_3" then "1.3 กิจกรรม Active Learning"
    else if id == "SLIDE_PRO_1_4_5" then "1.4–1.5 สื่อเทคโนโลยี + วัดประเมินผล"
    else if id == "SLIDE_PRO_1_6_7" then "1.6–1.7 บรรยากาศ + เทคโนโลยีดิจิทัล"
    else if id == "SLIDE_PRO_2" then "2.1–2.3 การส่งเสริมสนับสนุน"
    else if id == "SLIDE_SOCIAL" then "ด้านสังคม: Mentor + PLC"
    else if id == "SLIDE_PER_DISCIPLINE" then "วินัย คุณธรรม จริยธรรม"
    else if id == "SLIDE_PER_DEVELOP" then "การพัฒนาตนเอง"
    else if id == "SLIDE_SUMMARY" then "สรุป: ผ่านเกณฑ์ + สิ่งที่ต้องเติม"
    else ""
  }

  const AllRounds: seq<int> := [1, 2, 3, 4]
  const LateRounds: seq<int> := [3, 4]

  /** The templates shown in every round before the social slide. */
  const OpeningSlides: seq<SlideTemplate> := [
    SlideTemplate("SLIDE_COVER", [], CoverSlide, AllRounds),
    SlideTemplate("SLIDE_OVERVIEW", [], OverviewSlide, AllRounds),
    SlideTemplate("SLIDE_PRO_OVERVIEW", ProfessionalIds, DomainSlide, AllRounds),
    SlideTemplate("SLIDE_PRO_1_1", ["PRO_1.1"], IndicatorSlide, AllRounds),
    SlideTemplate("SLIDE_PRO_1_2", ["PRO_1.2"], IndicatorSlide, AllRounds),
    SlideTemplate("SLIDE_PRO_1_3", ["PRO_1.3"], IndicatorSlide, AllRounds),
    SlideTemplate("SLIDE_PRO_1_4_5", ["PRO_1.4", "PRO_1.5"], IndicatorSlide, AllRounds),
    SlideTemplate("SLIDE_PRO_1_6_7", ["PRO_1.6", "PRO_1.7"], IndicatorSlide, AllRounds),
    SlideTemplate("SLIDE_PRO_2", ["PRO_2.1", "PRO_2.2", "PRO_2.3"], IndicatorSlide, AllRounds)
  ]
  const SocialSlide := SlideTemplate("SLIDE_SOCIAL", SocialIds, DomainSlide, LateRounds)
  const DisciplineSlide := SlideTemplate("SLIDE_PER_DISCIPLINE", PersonalIds[..11], ChecklistSlide, AllRounds)
  const DevelopSlide := SlideTemplate("SLIDE_PER_DEVELOP", PersonalIds[11..], IndicatorSlide, LateRounds)
  const ClosingSlide := SlideTemplate("SLIDE_SUMMARY", [], SummarySlide, AllRounds)

  /** `SLIDE_TEMPLATES`, in order. */
  const SlideTemplates: seq<SlideTemplate> :=
    OpeningSlides + [SocialSlide, DisciplineSlide, DevelopSlide, ClosingSlide]

  /** `templates.filter(s => s.assessmentRounds.includes(round))`. */
  function SlidesInRound(templates: seq<SlideTemplate>, round: int): seq<SlideTemplate>
  {
    if templates == [] then []
    else (if round in templates[0].assessmentRounds then [templates[0]] else [])
         + SlidesInRound(templates[1..], round)
  }

  /** Exactly the templates that list the round are kept. */
  lemma {:induction false} SlidesInRoundMembers(templates: seq<SlideTemplate>, round: int)
    ensures |SlidesInRound(templates, round)| <= |templates|
    ensures forall s :: s in SlidesInRound(templates, round) <==> s in templates && round in s.assessmentRounds
    decreases |templates|
  {
    if templates != [] {
      SlidesInRoundMembers(templates[1..], round);
      assert templates == [templates[0]] + templates[1..];
    }
  }

  /** Filtering keeps relative order: it distributes over concatenation. */
  lemma {:induction false} SlidesInRoundAppend(a: seq<SlideTemplate>, b: seq<SlideTemplate>, round: int)
    ensures SlidesInRound(a + b, round) == SlidesInRound(a, round) + SlidesInRound(b, round)
    decreases |a|
  {
    if a == [] {
      assert a + b == b;
    } else {
      assert (a + b)[1..] == a[1..] + b;
      SlidesInRoundAppend(a[1..], b, round);
    }
  }

  /** `getSlidesForRound`. */
  function GetSlidesForRound(round: int): seq<SlideTemplate> {
    SlidesInRound(SlideTemplates, round)
  }

  function SlideIds(slides: seq<SlideTemplate>): (r: seq<string>)
    ensures |r| == |slides| && forall i :: 0 <= i < |slides| ==> r[i] == slides[i].id
  {
    if slides == [] then [] else [slides[0].id] + SlideIds(slides[1..])
  }

  const EarlySlideIds: seq<string> :=
    ["SLIDE_COVER", "SLIDE_OVERVIEW", "SLIDE_PRO_OVERVIEW", "SLIDE_PRO_1_1", "SLIDE_PRO_1_2",
     "SLIDE_PRO_1_3", "SLIDE_PRO_1_4_5", "SLIDE_PRO_1_6_7", "SLIDE_PRO_2",
     "SLIDE_PER_DISCIPLINE", "SLIDE_SUMMARY"]

  const LateSlideIds: seq<string> :=
    ["SLIDE_COVER", "SLIDE_OVERVIEW", "SLIDE_PRO_OVERVIEW", "SLIDE_PRO_1_1", "SLIDE_PRO_1_2",
     "SLIDE_PRO_1_3", "SLIDE_PRO_1_4_5", "SLIDE_PRO_1_6_7", "SLIDE_PRO_2", "SLIDE_SOCIAL",
     "SLIDE_PER_DISCIPLINE", "SLIDE_PER_DEVELOP", "SLIDE_SUMMARY"]

  /** A list whose every template lists the round passes the filter whole. */
  lemma {:induction false} KeepAll(ts: seq<SlideTemplate>, round: int)
    requires forall k :: 0 <= k < |ts| ==> round in ts[k].assessmentRounds
    ensures SlidesInRound(ts, round) == ts
    decreases |ts|
  {
    if ts != [] {
      KeepAll(ts[1..], round);
      assert ts == [ts[0]] + ts[1..];
    }
  }

  /** A round no template lists shows nothing. */
  lemma {:induction false} NoSlidesOutsideRounds(templates: seq<SlideTemplate>, round: int)
    requires forall k :: 0 <= k < |templates| ==> round !in templates[k].assessmentRounds
    ensures SlidesInRound(templates, round) == []
    decreases |templates|
  {
    if templates != [] {
      NoSlidesOutsideRounds(templates[1..], round);
    }
  }

  lemma OpeningInEveryRound()
    ensures forall k :: 0 <= k < |OpeningSlides| ==> OpeningSlides[k].assessmentRounds == AllRounds
  {
  }

  /** Rounds 1 and 2 show 11 slides, rounds 3 and 4 show 13 (adding the
      social and self-development slides), in template order; any other
      round shows none. */
  lemma SlidesPerRound(round: int)
    ensures GetSlidesForRound(round) ==
      if round == 1 || round == 2 then OpeningSlides + [DisciplineSlide, ClosingSlide]
      else if round == 3 || round == 4 then SlideTemplates
      else []
  {
    var tail := [SocialSlide, DisciplineSlide, DevelopSlide, ClosingSlide];
    SlidesInRoundAppend(OpeningSlides, tail, round);
    OpeningInEveryRound();
    if 1 <= round <= 4 {
      KeepAll(OpeningSlides, round);
    } else {
      NoSlidesOutsideRounds(OpeningSlides, round);
    }
    ClosingSlidesInRound(round);
  }

  lemma ClosingSlidesInRound(round: int)
    ensures SlidesInRound([SocialSlide, DisciplineSlide, DevelopSlide, ClosingSlide], round) ==
      if round == 1 || round == 2 then [DisciplineSlide, ClosingSlide]
      else if round == 3 || round == 4 then [SocialSlide, DisciplineSlide, DevelopSlide, ClosingSlide]
      else []
  {
    var tail := [SocialSlide, DisciplineSlide, DevelopSlide, ClosingSlide];
    assert tail == [SocialSlide] + [DisciplineSlide] + [DevelopSlide] + [ClosingSlide];
    SlidesInRoundAppend([SocialSlide] + [DisciplineSlide] + [DevelopSlide], [ClosingSlide], round);
    SlidesInRoundAppend([SocialSlide] + [DisciplineSlide], [DevelopSlide], round);
    SlidesInRoundAppend([SocialSlide], [DisciplineSlide], round);
    SlidesInRoundOne(SocialSlide, round);
    SlidesInRoundOne(DisciplineSlide, round);
    SlidesInRoundOne(DevelopSlide, round);
    SlidesInRoundOne(ClosingSlide, round);
  }

  lemma SlidesInRoundOne(t: SlideTemplate, round: int)
    ensures SlidesInRound([t], round) == if round in t.assessmentRounds then [t] else []
  {
    assert [t][1..] == [];
  }

  lemma SlideCounts()
    ensures |GetSlidesForRound(1)| == 11 && |GetSlidesForRound(2)| == 11
    ensures |GetSlidesForRound(3)| == 13 && |GetSlidesForRound(4)| == 13
  {
    SlidesPerRound(1); SlidesPerRound(2); SlidesPerRound(3); SlidesPerRound(4);
  }

  /** Which ids those are. */
  lemma SlideIdsPerRound()
    ensures SlideIds(OpeningSlides + [DisciplineSlide, ClosingSlide]) == EarlySlideIds
    ensures SlideIds(SlideTemplates) == LateSlideIds
  {
    var early := SlideIds(OpeningSlides + [DisciplineSlide, ClosingSlide]);
    forall i | 0 <= i < 11
      ensures early[i] == EarlySlideIds[i]
    {
    }
    var late := SlideIds(SlideTemplates);
    forall i | 0 <= i < 13
      ensures late[i] == LateSlideIds[i]
    {
    }
  }

  /** Every indicator a slide names is in the configuration. */
  lemma SlideIndicatorsExist()
    ensures forall k, j :: 0 <= k < |SlideTemplates| && 0 <= j < |SlideTemplates[k].indicatorIds| ==>
              SlideTemplates[k].indicatorIds[j] in AllIds(Domains)
  {
    ConfigShape();
    OpeningIndicatorsAreProfessional();
  }

  lemma OpeningIndicatorsAreProfessional()
    ensures forall k, j :: 0 <= k < |OpeningSlides| && 0 <= j < |OpeningSlides[k].indicatorIds| ==>
              OpeningSlides[k].indicatorIds[j] in ProfessionalIds
  {
  }
}
