/** The infrastructure assessment screen: one card per subsection of a
    section, each with an expanded flag, a 1-3 score and a submission in
    flight, plus the fixed scoring rubric the cards display. */
module Infra {
  import opened Common
  import opened Text

  // ---------------------------------------------------------------------
  // The scoring rubric
  // ---------------------------------------------------------------------

  const Flooring := "CATTLE SHED FLOORING"
  const Roofing := "CATTLE SHED ROOFING"
  const Space := "SPACE INSIDE THE CATTLE SHED"
  const Ventilation := "AIRFLOW AND VENTILATION IN CATTLE SHED"
  const Drainage := "DRAINAGE SYSTEM INSIDE THE CATTLE SHED"
  const Waste := "WASTE MANAGEMENT"

  /** The subsection names the rubric has text for. */
  const RubricSubsections: set<string> := {Flooring, Roofing, Space, Ventilation, Drainage, Waste}

  /** One tier of the rubric: its label, colour, icon and a description per subsection name. */
  datatype ScoreInfo = ScoreInfo(text: string, color: string, icon: Icon, descriptions: map<string, string>)

  /** `scoreDescriptions`: the three tiers, keyed by score value. */
  const ScoreDescriptions: map<int, ScoreInfo> := map[
    1 := ScoreInfo("Bad Practice", "#EF4444", XCircle, map[
      Flooring := "Kachcha floor made of mud or small stones. Areas are wet or have waterlogged patches.",
      Roofing := "Animals are tied in open without roof to protect from direct sunlight and rain.",
      Space := "There is not enough space in the shed, resulting in overcrowded living in cramped and uncomfortable conditions.",
      Ventilation := "There is no or very minimal ventilation, leading to high heat and humidity, and foul odor inside the shed.",
      Drainage := "No drainage inside the shed, leading to waterlogging and lots of flies.",
      Waste := "Lack a dung pit or organized system for waste and dung disposal. Dung and urine are scattered around the shed, attracting numerous flies."]),
    2 := ScoreInfo("Needs Improvement", "#F59E0B", AlertCircle, map[
      Flooring := "Floor has some slippery areas but mostly adequate grip.",
      Roofing := "Roof height is low, with lowest point being less than 8 feet.",
      Space := "Space is limited but animals can move with some restrictions.",
      Ventilation := "Limited provision for cross ventilation, leading to foul odor in the shed.",
      Drainage := "The shed has a drain, but wastewater is not properly drained out, leading to waterlogging.",
      Waste := "The dung pit is constructed but poorly maintained. It is exposed or leaking, hindering drainage, and serving as a breeding ground for flies."]),
    3 := ScoreInfo("Good Practice", "#10B981", CheckCircle, map[
      Flooring := "Concrete floor with rubber mats to ensure adequate grip.",
      Roofing := "Roof is high enough for animals and provides excellent protection being more than 10-12 feet.",
      Space := "There is sufficient space in the shed and animals are staying in comfortable conditions.",
      Ventilation := "Properly ventilated shed with adequate airflow, leading to low humidity, temperature, and no foul odor in the shed.",
      Drainage := "The shed has proper drain that allows all wastewater to flow out easily, preventing any waterlogging in the shed.",
      Waste := "A concrete dung pit or biogas production structure is properly constructed and maintained. Drains are free from waterlogging."])
  ]

  const UnassessedColor := "#6B7280"
  const NotAssessed := "Not Assessed"
  const NoDescription := "No description available"

  /** A score the rubric has a tier for. */
  predicate IsRubricScore(score: Option<int>) {
    score.Some? && 1 <= score.value <= 3
  }

  /** `scoreDescriptions[score]`, or nothing for a missing or unknown score. */
  function TierOf(score: Option<int>): (tier: Option<ScoreInfo>)
    ensures tier.Some? <==> IsRubricScore(score)
  {
    if score.Some? && score.value in ScoreDescriptions then Some(ScoreDescriptions[score.value]) else None
  }

  /** `getScoreColor`: the tier's colour, grey when the score has no tier. */
  function GetScoreColor(score: Option<int>): (color: string)
    ensures score == Some(1) ==> color == "#EF4444"
    ensures score == Some(2) ==> color == "#F59E0B"
    ensures score == Some(3) ==> color == "#10B981"
    ensures !IsRubricScore(score) ==> color == UnassessedColor
  {
    var tier := TierOf(score);
    if tier.Some? && tier.value.color != "" then tier.value.color else UnassessedColor
  }

  /** `getScoreText`: the tier's label, "Not Assessed" when the score has no tier. */
  function GetScoreText(score: Option<int>): (text: string)
    ensures score == Some(1) ==> text == "Bad Practice"
    ensures score == Some(2) ==> text == "Needs Improvement"
    ensures score == Some(3) ==> text == "Good Practice"
    ensures !IsRubricScore(score) ==> text == NotAssessed
  {
    var tier := TierOf(score);
    if tier.Some? && tier.value.text != "" then tier.value.text else NotAssessed
  }

  /** `getScoreIcon`: the tier's icon, the camera when the score has no tier. */
  function GetScoreIcon(score: Option<int>): (icon: Icon)
    ensures score == Some(1) ==> icon == XCircle
    ensures score == Some(2) ==> icon == AlertCircle
    ensures score == Some(3) ==> icon == CheckCircle
    ensures !IsRubricScore(score) ==> icon == Camera
  {
    var tier := TierOf(score);
    if tier.Some? then tier.value.icon else Camera
  }

  /** `getScoreDescription`: the rubric text for a tier and an exact subsection
      name, "No description available" when either is unknown. */
  function GetScoreDescription(score: Option<int>, subsectionName: string): (description: string)
    ensures IsRubricScore(score) && subsectionName in RubricSubsections ==>
              description == ScoreDescriptions[score.value].descriptions[subsectionName]
    ensures !IsRubricScore(score) || subsectionName !in RubricSubsections ==> description == NoDescription
  {
    var tier := TierOf(score);
    if tier.Some? && subsectionName in tier.value.descriptions && tier.value.descriptions[subsectionName] != ""
    then tier.value.descriptions[subsectionName]
    else NoDescription
  }

  /** The label says "Not Assessed" exactly when the score has no tier. */
  lemma ScoreTextAssessedIff(score: Option<int>)
    ensures GetScoreText(score) == NotAssessed <==> !IsRubricScore(score)
  {
  }

  /** The three tiers have three different colours, none of them the grey of an unscored card. */
  lemma ScoreColorsDistinct(a: Option<int>, b: Option<int>)
    requires IsRubricScore(a) && IsRubricScore(b) && a != b
    ensures GetScoreColor(a) != GetScoreColor(b)
    ensures GetScoreColor(a) != UnassessedColor
  {
  }

  /** A real description is shown exactly when the score has a tier and the
      name is one of the six rubric subsections, spelled exactly. */
  lemma DescriptionAvailableIff(score: Option<int>, subsectionName: string)
    ensures GetScoreDescription(score, subsectionName) != NoDescription <==>
              IsRubricScore(score) && subsectionName in RubricSubsections
  {
  }

  // ---------------------------------------------------------------------
  // Subsection icons
  // ---------------------------------------------------------------------

  /** The keywords `getIconForSubsection` tries, in order, with the icon each selects. */
  const IconKeywords: seq<(string, Icon)> := [
    ("flooring", Home), ("roofing", Shield), ("space", Home),
    ("airflow", Wind), ("ventilation", Wind), ("drainage", Droplets), ("waste", Trash2)]

  /** Reference definition: the icon of the first keyword of `table`, from
      index `from` on, that occurs in `lowerName`; the house when none does. */
  function FirstKeywordIcon(lowerName: string, table: seq<(string, Icon)>, from: nat): Icon
    decreases |table| - from
  {
    if from >= |table| then Home
    else if Includes(lowerName, table[from].0) then table[from].1
    else FirstKeywordIcon(lowerName, table, from + 1)
  }

  /** The first keyword wins: when keyword `k` occurs and no earlier one does,
      keyword `k` decides the icon; when none occurs, the house is the default. */
  lemma {:induction false} FirstKeywordIconSpec(lowerName: string, table: seq<(string, Icon)>, from: nat, k: int)
    requires from <= k <= |table|
    requires forall j :: from <= j < k ==> !Includes(lowerName, table[j].0)
    ensures k < |table| && Includes(lowerName, table[k].0) ==> FirstKeywordIcon(lowerName, table, from) == table[k].1
    ensures k == |table| ==> FirstKeywordIcon(lowerName, table, from) == Home
    decreases k - from
  {
    if from < k {
      assert !Includes(lowerName, table[from].0);
      FirstKeywordIconSpec(lowerName, table, from + 1, k);
    }
  }

  /** `getIconForSubsection`: match the lower-cased name against the
      keywords in order. */
  function GetIconForSubsection(name: string): (icon: Icon)
    ensures icon in {Home, Shield, Wind, Droplets, Trash2}
  {
    var nameLower := ToLower(name);
    if Includes(nameLower, "flooring") then Home
    else if Includes(nameLower, "roofing") then Shield
    else if Includes(nameLower, "space") then Home
    else if Includes(nameLower, "airflow") || Includes(nameLower, "ventilation") then Wind
    else if Includes(nameLower, "drainage") then Droplets
    else if Includes(nameLower, "waste") then Trash2
    else Home
  }

  /** The chain of tests in `GetIconForSubsection` is the ordered keyword
      table: the first keyword found in the lower-cased name decides. */
  lemma IconFollowsKeywordTable(name: string)
    ensures GetIconForSubsection(name) == FirstKeywordIcon(ToLower(name), IconKeywords, 0)
  {
  }

  /** The icon choice ignores ASCII letter case. */
  lemma IconIgnoresCase(name: string)
    ensures GetIconForSubsection(ToLower(name)) == GetIconForSubsection(name)
  {
    ToLowerIdempotent(name);
  }

  // ---------------------------------------------------------------------
  // The score selector of one card
  // ---------------------------------------------------------------------

  /** The options the selector offers, in display order. */
  const ScoreOptions: seq<int> := [1, 2, 3]

  /** A JavaScript-truthy score: present and not 0. */
  predicate IsChosen(score: Option<int>) {
    score.Some? && score.value != 0
  }

  /** `scores[id] || null`: the selection a newly shown selector starts with. */
  function InitialSelection(scores: map<int, int>, subsectionId: int): (selected: Option<int>)
    ensures selected.Some? <==> subsectionId in scores && scores[subsectionId] != 0
    ensures selected.Some? ==> selected.value == scores[subsectionId]
  {
    if subsectionId in scores && scores[subsectionId] != 0 then Some(scores[subsectionId]) else None
  }

  /** The options drawn as selected: those equal to `selectedScore`. */
  function SelectedOptions(selected: Option<int>): (chosen: set<int>)
    ensures |chosen| <= 1
    ensures chosen <= set o | o in ScoreOptions
    ensures selected.Some? && selected.value in ScoreOptions ==> chosen == {selected.value}
    ensures selected.Some? && selected.value !in ScoreOptions ==> chosen == {}
    ensures selected.None? ==> chosen == {}
  {
    var chosen := set o | o in ScoreOptions && selected == Some(o);
    assert chosen == if selected.Some? && selected.value in ScoreOptions then {selected.value} else {};
    chosen
  }

  /** `submitting[id]`, with a missing entry read as false. */
  function IsSubmitting(submitting: map<int, bool>, subsectionId: int): bool {
    subsectionId in submitting && submitting[subsectionId]
  }

  /** The submit button is enabled (`!(!selectedScore || isSubmitting)`). */
  predicate SubmitEnabled(selected: Option<int>, isSubmitting: bool) {
    IsChosen(selected) && !isSubmitting
  }

  /** A selector shown after a successful submit of a chosen value starts at that value. */
  lemma RecordedScoreIsReselected(scores: map<int, int>, subsectionId: int, scoreValue: int)
    requires scoreValue != 0
    ensures InitialSelection(scores[subsectionId := scoreValue], subsectionId) == Some(scoreValue)
    ensures SelectedOptions(InitialSelection(scores[subsectionId := scoreValue], subsectionId)) ==
              if scoreValue in ScoreOptions then {scoreValue} else {}
  {
  }

  /** `ScoreSelector`: the selection state of one card. */
  class ScoreSelector {
    const subsectionId: int
    var selectedScore: Option<int>

    constructor (subsectionId: int, scores: map<int, int>)
      ensures this.subsectionId == subsectionId
      ensures selectedScore == InitialSelection(scores, subsectionId)
    {
      this.subsectionId := subsectionId;
      selectedScore := InitialSelection(scores, subsectionId);
    }

    /** `handleScoreSelect`: pressing an option selects it and only it. */
    method HandleScoreSelect(score: int)
      modifies this
      ensures selectedScore == Some(score)
      ensures score in ScoreOptions ==> SelectedOptions(selectedScore) == {score}
      ensures score !in ScoreOptions ==> SelectedOptions(selectedScore) == {}
    {
      selectedScore := Some(score);
    }
  }

  // ---------------------------------------------------------------------
  // The screen
  // ---------------------------------------------------------------------

  /** A subsection as the server lists it. */
  datatype Subsection = Subsection(id: int, name: string, description: string)

  /** The outcome of the camera flow: permission refused or failing, the user
      cancelling, a camera error, or a response with its list of asset URIs. */
  datatype CameraOutcome = PermissionRefused | PermissionFailed | Cancelled | CameraFailed(message: string) | Captured(uris: seq<string>)

  const LoadFailedAlert := Alert("Error", "Failed to load assessment categories. Please check your connection and try again.")
  const MissingUserAlert := Alert("Error", "User ID is required to submit scores.")
  const SubmittedAlert := Alert("Success", "Score submitted successfully!")
  const SubmitFailedAlert := Alert("Error", "Failed to submit score. Please try again.")
  const NoSelectionAlert := Alert("Error", "Please select a score before submitting.")
  const CameraDeniedAlert := Alert("Permission Denied", "You cannot use the camera without permission.")

  class InfraScreen {
    const userId: Option<int>
    const sectionId: int
    var subsections: seq<Subsection>
    var loading: bool
    var expandedSections: map<int, bool>
    var uploadedImages: map<int, string>
    var scores: map<int, int>
    var submitting: map<int, bool>

    /** Mounting the screen: `{ userId, sectionId = 1 } = route.params || {}`. */
    constructor (params: Option<InfraParams>)
      ensures userId == (if params.Some? then params.value.userId else None)
      ensures sectionId == (if params.Some? then params.value.sectionId.GetOr(1) else 1)
      ensures subsections == [] && loading
      ensures expandedSections == map[] && uploadedImages == map[] && scores == map[] && submitting == map[]
    {
      userId := if params.Some? then params.value.userId else None;
      sectionId := if params.Some? then params.value.sectionId.GetOr(1) else 1;
      subsections := [];
      loading := true;
      expandedSections := map[];
      uploadedImages := map[];
      scores := map[];
      submitting := map[];
    }

    /** The card of subsection `id` is open (`expandedSections[id]`, missing read as closed). */
    function IsExpanded(id: int): bool
      reads this
    {
      id in expandedSections && expandedSections[id]
    }

    /** `fetchSubsections`: the listed subsections replace the old ones on an ok
        response; any failure keeps them and raises the retry alert. */
    method FetchSubsections(response: Response<seq<Subsection>>) returns (alert: Option<Alert>)
      modifies this
      ensures subsections == if response.Ok? then response.data else old(subsections)
      ensures alert == if response.Ok? then None else Some(LoadFailedAlert)
      ensures !loading
      ensures expandedSections == old(expandedSections) && uploadedImages == old(uploadedImages)
      ensures scores == old(scores) && submitting == old(submitting)
    {
      loading := true;
      if response.Ok? {
        subsections := response.data;
        alert := None;
      } else {
        alert := Some(LoadFailedAlert);
      }
      loading := false;
    }

    /** `toggleSection`: flip the open flag of one card (a missing flag counts as
        closed, so the first toggle opens it) and leave every other card alone. */
    method ToggleSection(id: int)
      modifies this
      ensures expandedSections == old(expandedSections)[id := !old(IsExpanded(id))]
      ensures IsExpanded(id) == !old(IsExpanded(id))
      ensures forall other :: other != id ==> IsExpanded(other) == old(IsExpanded(other))
      ensures subsections == old(subsections) && loading == old(loading) && uploadedImages == old(uploadedImages)
      ensures scores == old(scores) && submitting == old(submitting)
    {
      expandedSections := expandedSections[id := !IsExpanded(id)];
    }

    /** The part of `submitScore` before the request: without a user id it
        alerts and changes nothing; otherwise it marks the subsection in flight. */
    method StartSubmit(subsectionId: int) returns (started: bool, alert: Option<Alert>)
      modifies this
      ensures started <==> HasId(userId)
      ensures started ==> submitting == old(submitting)[subsectionId := true] && alert == None
      ensures started ==> IsSubmitting(submitting, subsectionId)
      ensures started ==> forall sel :: !SubmitEnabled(sel, IsSubmitting(submitting, subsectionId))
      ensures !started ==> submitting == old(submitting) && alert == Some(MissingUserAlert)
      ensures scores == old(scores) && expandedSections == old(expandedSections)
      ensures subsections == old(subsections) && loading == old(loading) && uploadedImages == old(uploadedImages)
    {
      if !HasId(userId) {
        return false, Some(MissingUserAlert);
      }
      submitting := submitting[subsectionId := true];
      started, alert := true, None;
    }

    /** The part of `submitScore` after the request: only an ok response records
        the score; whatever the outcome, the subsection is no longer in flight. */
    method FinishSubmit(subsectionId: int, scoreValue: int, response: Response<()>) returns (alert: Alert)
      modifies this
      ensures scores == if response.Ok? then old(scores)[subsectionId := scoreValue] else old(scores)
      ensures submitting == old(submitting)[subsectionId := false]
      ensures !IsSubmitting(submitting, subsectionId)
      ensures forall sel :: SubmitEnabled(sel, IsSubmitting(submitting, subsectionId)) <==> IsChosen(sel)
      ensures alert == if response.Ok? then SubmittedAlert else SubmitFailedAlert
      ensures expandedSections == old(expandedSections)
      ensures subsections == old(subsections) && loading == old(loading) && uploadedImages == old(uploadedImages)
    {
      if response.Ok? {
        alert := SubmittedAlert;
        scores := scores[subsectionId := scoreValue];
      } else {
        alert := SubmitFailedAlert;
      }
      submitting := submitting[subsectionId := false];
    }

    /** `submitScore` run to completion with the request's outcome. */
    method SubmitScore(subsectionId: int, scoreValue: int, response: Response<()>) returns (alerts: seq<Alert>)
      modifies this
      ensures !HasId(userId) ==> scores == old(scores) && submitting == old(submitting) && alerts == [MissingUserAlert]
      ensures HasId(userId) ==>
                && scores == (if response.Ok? then old(scores)[subsectionId := scoreValue] else old(scores))
                && submitting == old(submitting)[subsectionId := false]
                && alerts == [if response.Ok? then SubmittedAlert else SubmitFailedAlert]
      ensures forall other :: other != subsectionId && other in old(scores) ==> other in scores && scores[other] == old(scores)[other]
      ensures expandedSections == old(expandedSections)
      ensures subsections == old(subsections) && loading == old(loading) && uploadedImages == old(uploadedImages)
    {
      var started, alert := StartSubmit(subsectionId);
      if !started {
        return [alert.value];
      }
      var done := FinishSubmit(subsectionId, scoreValue, response);
      alerts := [done];
    }

    /** `handleSubmit` of a card's selector: submit the selection when one is
        chosen, otherwise alert and change nothing. */
    method HandleSubmit(selector: ScoreSelector, response: Response<()>) returns (alerts: seq<Alert>)
      modifies this
      ensures !IsChosen(selector.selectedScore) ==>
                scores == old(scores) && submitting == old(submitting) && alerts == [NoSelectionAlert]
      ensures IsChosen(selector.selectedScore) && HasId(userId) ==>
                && scores == (if response.Ok? then old(scores)[selector.subsectionId := selector.selectedScore.value] else old(scores))
                && submitting == old(submitting)[selector.subsectionId := false]
                && alerts == [if response.Ok? then SubmittedAlert else SubmitFailedAlert]
      ensures IsChosen(selector.selectedScore) && !HasId(userId) ==>
                scores == old(scores) && submitting == old(submitting) && alerts == [MissingUserAlert]
      ensures expandedSections == old(expandedSections)
      ensures subsections == old(subsections) && loading == old(loading) && uploadedImages == old(uploadedImages)
    {
      if IsChosen(selector.selectedScore) {
        alerts := SubmitScore(selector.subsectionId, selector.selectedScore.value, response);
      } else {
        alerts := [NoSelectionAlert];
      }
    }

    /** `handleImageUpload`: only a response carrying at least one asset stores
        its URI for the subsection; every other outcome leaves the images alone. */
    method HandleImageUpload(subsectionId: int, camera: CameraOutcome) returns (alert: Option<Alert>)
      modifies this
      ensures uploadedImages ==
                if camera.Captured? && |camera.uris| > 0 then old(uploadedImages)[subsectionId := camera.uris[0]]
                else old(uploadedImages)
      ensures alert == match camera
                       case PermissionRefused => Some(CameraDeniedAlert)
                       case CameraFailed(message) => Some(Alert("Camera Error", message))
                       case _ => None
      ensures scores == old(scores) && submitting == old(submitting) && expandedSections == old(expandedSections)
      ensures subsections == old(subsections) && loading == old(loading)
    {
      alert := None;
      match camera {
        case PermissionRefused =>
          alert := Some(CameraDeniedAlert);
        case PermissionFailed =>
        case Cancelled =>
        case CameraFailed(message) =>
          alert := Some(Alert("Camera Error", message));
        case Captured(uris) =>
          if |uris| > 0 {
            uploadedImages := uploadedImages[subsectionId := uris[0]];
          }
      }
    }
  }

  /** Two toggles of the same card bring back its open flag and every other card's. */
  method ToggleTwiceRestores(screen: InfraScreen, id: int)
    modifies screen
    ensures forall k :: screen.IsExpanded(k) == old(screen.IsExpanded(k))
    ensures screen.scores == old(screen.scores) && screen.submitting == old(screen.submitting)
  {
    screen.ToggleSection(id);
    screen.ToggleSection(id);
  }
}
