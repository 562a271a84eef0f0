/** `Conversations::LeadScoringService`: applying a lead-scoring result to a
    conversation — custom attributes, a status label, a priority band and, for a
    qualified lead, a private note. */
module LeadScoring {
  import opened Base
  import Text
  import Lists

  datatype Priority = Low | Medium | High | Urgent

  /** Values stored under `custom_attributes`; `AttrOther` stands for whatever a key held before. */
  datatype Attr =
    | AttrInt(i: int)
    | AttrBool(b: bool)
    | AttrStrings(ss: seq<string>)
    | AttrTime(t: int)
    | AttrOther(raw: string)

  /** An account label as `ensure_account_label` sees it. */
  datatype Label = Label(color: Option<string>, description: Option<string>, showOnSidebar: Option<bool>)

  /** The private, outgoing, `lead_scoring`-tagged message the service writes. */
  datatype Note = Note(content: string)

  datatype Conversation = Conversation(
    customAttributes: Option<map<string, Attr>>,
    labelList: Option<seq<string>>,
    priority: Option<Priority>,
    notes: seq<Note>)

  /** The conversation together with its account's labels, keyed by title. */
  datatype Account = Account(conversation: Conversation, labels: map<string, Label>)

  /** The scoring result after `to_i`, `!!` and `to_s` coercion. */
  datatype ScoringResult = ScoringResult(score: int, qualified: bool, reasons: seq<string>)

  /** The model's reply as JSON: an object carries a scoring result. */
  datatype Json = JsonObject(result: ScoringResult) | JsonOther

  datatype Hook = Hook(enabled: bool)

  /** `parse_json`: the reply if it parses to a JSON object; `nil` if it fails to parse or is anything else. */
  function ParseJson(reply: Option<Json>): (r: Option<ScoringResult>)
    ensures r.Some? <==> reply.Some? && reply.value.JsonObject?
    ensures r.Some? ==> r.value == reply.value.result
  {
    match reply
    case Some(JsonObject(result)) => Some(result)
    case _ => None
  }

  function PriorityRank(p: Option<Priority>): (n: nat)
    ensures n <= 4
    ensures n == 0 <==> p.None?
  {
    match p
    case None => 0
    case Some(Low) => 1
    case Some(Medium) => 2
    case Some(High) => 3
    case Some(Urgent) => 4
  }

  /** The lowest score that earns at least the given priority. */
  function Threshold(p: Priority): int {
    match p
    case Low => 40
    case Medium => 50
    case High => 70
    case Urgent => 85
  }

  /** `apply_priority_for_score`: the band a score falls in, `None` below 40. */
  function DesiredPriority(score: int): (r: Option<Priority>)
    ensures r.None? <==> score < 40
    ensures r.Some? ==> Threshold(r.value) <= score
  {
    if score >= 85 then Some(Urgent)
    else if score >= 70 then Some(High)
    else if score >= 50 then Some(Medium)
    else if score >= 40 then Some(Low)
    else None
  }

  /** The bands against the threshold table: a score reaches a priority or better
      exactly when it is at least that priority's threshold. */
  lemma DesiredPriorityThresholds(score: int, p: Priority)
    ensures PriorityRank(DesiredPriority(score)) >= PriorityRank(Some(p)) <==> score >= Threshold(p)
  {
  }

  /** A higher score never yields a lower priority. */
  lemma DesiredPriorityMonotone(s1: int, s2: int)
    requires s1 <= s2
    ensures PriorityRank(DesiredPriority(s1)) <= PriorityRank(DesiredPriority(s2))
  {
  }

  /** The priority after scoring: the band when there is one, the old priority otherwise. */
  function ApplyPriority(c: Conversation, score: int): (r: Conversation)
    ensures r.customAttributes == c.customAttributes && r.labelList == c.labelList && r.notes == c.notes
    ensures score < 40 ==> r.priority == c.priority
    ensures score >= 40 ==> r.priority == DesiredPriority(score)
  {
    match DesiredPriority(score)
    case None => c
    case Some(p) => c.(priority := Some(p))
  }

  const LeadKeys: set<string> := {"lead_score", "lead_qualified", "lead_reasons", "lead_scored_at"}

  /** `(custom_attributes || {}).merge(...)` with the four lead keys. */
  function MergeLeadAttributes(attrs: Option<map<string, Attr>>, result: ScoringResult, now: int): (r: map<string, Attr>)
    ensures var before := if attrs.Some? then attrs.value else map[];
            && r.Keys == before.Keys + LeadKeys
            && (forall k | k in before && k !in LeadKeys :: r[k] == before[k])
    ensures r["lead_score"] == AttrInt(result.score)
    ensures r["lead_qualified"] == AttrBool(result.qualified)
    ensures r["lead_reasons"] == AttrStrings(result.reasons)
    ensures r["lead_scored_at"] == AttrTime(now)
  {
    var before := if attrs.Some? then attrs.value else map[];
    before["lead_score" := AttrInt(result.score)]
          ["lead_qualified" := AttrBool(result.qualified)]
          ["lead_reasons" := AttrStrings(result.reasons)]
          ["lead_scored_at" := AttrTime(now)]
  }

  /** Scoring again overwrites the lead keys and nothing else: the second merge only sees its own values. */
  lemma MergeLeadAttributesOverwrites(attrs: Option<map<string, Attr>>, first: ScoringResult, second: ScoringResult, t1: int, t2: int)
    ensures MergeLeadAttributes(Some(MergeLeadAttributes(attrs, first, t1)), second, t2) == MergeLeadAttributes(attrs, second, t2)
  {
    var a := MergeLeadAttributes(Some(MergeLeadAttributes(attrs, first, t1)), second, t2);
    var b := MergeLeadAttributes(attrs, second, t2);
    assert a.Keys == b.Keys;
    forall k | k in a ensures a[k] == b[k] {
    }
  }

  const QualifiedLabel: string := "lead-qualificado"
  const NotQualifiedLabel: string := "lead-nao-qualificado"
  const LabelDescription: string := "Status de qualificação do lead"

  function StatusLabel(qualified: bool): (l: string)
    ensures l == QualifiedLabel <==> qualified
    ensures l == NotQualifiedLabel <==> !qualified
  {
    if qualified then QualifiedLabel else NotQualifiedLabel
  }

  function StatusColor(qualified: bool): (c: string)
    ensures c == "#22c55e" <==> qualified
    ensures c == "#ef4444" <==> !qualified
  {
    if qualified then "#22c55e" else "#ef4444"
  }

  /** `(label_list || []) + [status_label]`, then `uniq`. */
  function UpdatedLabels(labels: Option<seq<string>>, status: string): (r: seq<string>)
    ensures status in r
    ensures Lists.NoDuplicates(r)
    ensures labels.Some? ==> forall i | 0 <= i < |labels.value| :: labels.value[i] in r
    ensures forall i | 0 <= i < |r| :: r[i] == status || (labels.Some? && r[i] in labels.value)
  {
    var current := if labels.Some? then labels.value else [];
    var r := Lists.Dedup(current + [status]);
    assert (current + [status])[|current|] == status;
    assert forall i | 0 <= i < |current| :: (current + [status])[i] == current[i];
    r
  }

  /** On a duplicate-free label list the status label is appended when missing and
      the list is kept as it is otherwise; the opposite status label is never removed. */
  lemma UpdatedLabelsOfDistinct(labels: seq<string>, status: string)
    requires Lists.NoDuplicates(labels)
    ensures UpdatedLabels(Some(labels), status) == if status in labels then labels else labels + [status]
  {
    Lists.DedupAppend(labels, status);
  }

  /** Scoring twice with the same outcome labels the conversation once. */
  lemma UpdatedLabelsIdempotent(labels: Option<seq<string>>, status: string)
    ensures UpdatedLabels(Some(UpdatedLabels(labels, status)), status) == UpdatedLabels(labels, status)
  {
    var once := UpdatedLabels(labels, status);
    UpdatedLabelsOfDistinct(once, status);
  }

  /** `ensure_account_label`: the account's labels afterwards, and whether the label was saved. */
  datatype LabelUpsert = LabelUpsert(labels: map<string, Label>, saved: bool)

  function EnsureAccountLabel(labels: map<string, Label>, title: string, color: string, description: string): (r: LabelUpsert)
    ensures r.labels.Keys == labels.Keys + {title}
    ensures forall t | t in labels && t != title :: r.labels[t] == labels[t]
    ensures var before := if title in labels then labels[title] else Label(None, None, None);
            var after := r.labels[title];
            && after.color == (if before.color.Some? then before.color else Some(color))
            && after.description == (if before.description.Some? then before.description else Some(description))
            && after.showOnSidebar == (if before.showOnSidebar.Some? then before.showOnSidebar else Some(true))
            && (r.saved <==> title !in labels || after != before)
  {
    var found := if title in labels then labels[title] else Label(None, None, None);
    var upserted := Label(
      if found.color.Some? then found.color else Some(color),
      if found.description.Some? then found.description else Some(description),
      if found.showOnSidebar.None? then Some(true) else found.showOnSidebar);
    LabelUpsert(labels[title := upserted], title !in labels || upserted != found)
  }

  /** A label that already exists in full is not written again. */
  lemma EnsureAccountLabelStable(labels: map<string, Label>, title: string, color: string, description: string, c2: string, d2: string)
    ensures var first := EnsureAccountLabel(labels, title, color, description);
            var second := EnsureAccountLabel(first.labels, title, c2, d2);
            second.labels == first.labels && !second.saved
  {
  }

  const NotePrefix: string := "Lead qualificado — Score: "
  const ReasonsMarker: string := ". Motivos: "

  /** `create_private_note`'s content. */
  function NoteContent(score: int, reasons: seq<string>): (s: string)
    ensures |s| > |NotePrefix| && s[..|NotePrefix|] == NotePrefix && s[|s| - 1] == '.'
  {
    NotePrefix + Text.IntToDecimal(score) + ReasonsMarker + Text.Join(reasons) + "."
  }

  datatype NoteFields = NoteFields(score: int, reasons: seq<string>)

  /** Reads the score and the reasons back out of a note. */
  function ParseNote(s: string): Option<NoteFields> {
    if |s| <= |NotePrefix| || s[..|NotePrefix|] != NotePrefix || s[|s| - 1] != '.' then None
    else
      var body := s[|NotePrefix|..|s| - 1];
      var k := Text.NumeralPrefixLength(body);
      var rest := body[k..];
      if |rest| < |ReasonsMarker| || rest[..|ReasonsMarker|] != ReasonsMarker then None
      else match Text.DecimalToInt(body[..k])
        case None => None
        case Some(n) => Some(NoteFields(n, Text.Split(rest[|ReasonsMarker|..])))
  }

  /** The score in a note reads back as written; so do the reasons, when there are
      any and none of them contains the `", "` separator. */
  lemma NoteRoundTrip(score: int, reasons: seq<string>)
    ensures ParseNote(NoteContent(score, reasons)).Some?
    ensures ParseNote(NoteContent(score, reasons)).value.score == score
    ensures |reasons| >= 1 && (forall i | 0 <= i < |reasons| :: Text.NoSeparator(reasons[i])) ==>
              ParseNote(NoteContent(score, reasons)).value.reasons == reasons
  {
    var digits := Text.IntToDecimal(score);
    var joined := Text.Join(reasons);
    var s := NoteContent(score, reasons);
    assert s == NotePrefix + (digits + ReasonsMarker + joined) + ".";
    var body := s[|NotePrefix|..|s| - 1];
    assert body == digits + (ReasonsMarker + joined);
    Text.NumeralPrefixOfConcat(digits, ReasonsMarker + joined);
    assert body[..|digits|] == digits;
    assert body[|digits|..] == ReasonsMarker + joined;
    assert (ReasonsMarker + joined)[|ReasonsMarker|..] == joined;
    Text.IntDecimalRoundTrip(score);
    if |reasons| >= 1 && (forall i | 0 <= i < |reasons| :: Text.NoSeparator(reasons[i])) {
      Text.SplitJoin(reasons);
    }
  }

  /** `persist_results`: attributes, labels, priority and, for a qualified lead, a note. */
  function PersistResults(a: Account, result: ScoringResult, now: int): (r: Account)
    ensures r.conversation.customAttributes == Some(MergeLeadAttributes(a.conversation.customAttributes, result, now))
    ensures r.conversation.labelList == Some(UpdatedLabels(a.conversation.labelList, StatusLabel(result.qualified)))
    ensures r.labels == EnsureAccountLabel(a.labels, StatusLabel(result.qualified), StatusColor(result.qualified), LabelDescription).labels
    ensures r.conversation.priority == if result.score >= 40 then DesiredPriority(result.score) else a.conversation.priority
    ensures r.conversation.notes ==
              a.conversation.notes + (if result.qualified then [Note(NoteContent(result.score, result.reasons))] else [])
  {
    var c := a.conversation;
    var status := StatusLabel(result.qualified);
    var withAttrs := c.(customAttributes := Some(MergeLeadAttributes(c.customAttributes, result, now)));
    var upsert := EnsureAccountLabel(a.labels, status, StatusColor(result.qualified), LabelDescription);
    var withLabels := withAttrs.(labelList := Some(UpdatedLabels(c.labelList, status)));
    var withPriority := ApplyPriority(withLabels, result.score);
    var withNote := if result.qualified
                    then withPriority.(notes := withPriority.notes + [Note(NoteContent(result.score, result.reasons))])
                    else withPriority;
    Account(withNote, upsert.labels)
  }

  /** `perform`: nothing changes unless the account has an enabled OpenAI hook and
      the reply parses to a JSON object; then the result is persisted. */
  function Perform(a: Account, hook: Option<Hook>, reply: Option<Json>, now: int): (r: Account)
    ensures hook.None? || !hook.value.enabled ==> r == a
    ensures ParseJson(reply).None? ==> r == a
    ensures hook.Some? && hook.value.enabled && ParseJson(reply).Some? ==> r == PersistResults(a, ParseJson(reply).value, now)
  {
    if hook.None? || !hook.value.enabled then a
    else match ParseJson(reply)
      case None => a
      case Some(result) => PersistResults(a, result, now)
  }

  /** A private note is written exactly for a qualified lead, and it is the one note added. */
  lemma NoteOnlyWhenQualified(a: Account, result: ScoringResult, now: int)
    ensures var notes := PersistResults(a, result, now).conversation.notes;
            (|notes| == |a.conversation.notes| + 1 <==> result.qualified)
            && (result.qualified ==>
                  var parsed := ParseNote(notes[|notes| - 1].content);
                  parsed.Some? && parsed.value.score == result.score)
  {
    var notes := PersistResults(a, result, now).conversation.notes;
    if result.qualified {
      var note := Note(NoteContent(result.score, result.reasons));
      assert notes == a.conversation.notes + [note];
      assert notes[|notes| - 1] == note;
      NoteRoundTrip(result.score, result.reasons);
    } else {
      assert notes == a.conversation.notes + [];
    }
  }

  /** Whatever the outcome, the conversation keeps every label it had and carries
      the status label of this result. */
  lemma LabelsOnlyGrow(a: Account, result: ScoringResult, now: int)
    ensures var after := PersistResults(a, result, now).conversation.labelList;
            && after.Some?
            && (a.conversation.labelList.Some? ==>
                  forall i | 0 <= i < |a.conversation.labelList.value| :: a.conversation.labelList.value[i] in after.value)
            && StatusLabel(result.qualified) in after.value
  {
  }
}
