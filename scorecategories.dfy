/** The assessment category screen: the server's sections turned into cards
    with an icon and a gradient, and the navigation a card press starts. */
module ScoreCategories {
  import opened Common
  import Infra

  /** A section as `/api/sections` lists it. */
  datatype SectionItem = SectionItem(id: int, name: string)

  /** One card: `{ id, title, icon, gradient }`. */
  datatype Category = Category(id: int, title: string, icon: Icon, gradient: seq<string>)

  /** `iconMap`: the icon for each known section name. */
  const IconMap: map<string, Icon> := map[
    "Infrastructure-Cattle shed" := Building,
    "Feed and fodder storage and handing" := Archive,
    "Animal nutrition- Improve feeding practices to improve animal health" := Leaf,
    "Animal health management" := Syringe,
    "Milker's health and general hygiene" := Droplets,
    "Preparation for milking" := Clipboard,
    "Milking and post milking activities" := Clipboard,
    "Handling of milk" := Milk
  ]

  /** The cyan gradient, which is also the default. */
  const Cyan: seq<string> := ["#06B6D4", "#0891B2"]

  /** `gradientMap`: the gradient for each of the section ids 1 to 8. */
  const GradientMap: map<int, seq<string>> := map[1 := Cyan, 2 := Cyan, 3 := Cyan, 4 := Cyan, 5 := Cyan, 6 := Cyan, 7 := Cyan, 8 := Cyan]

  /** `iconMap[name] || Wind`. */
  function IconFor(name: string): (icon: Icon)
    ensures name in IconMap ==> icon == IconMap[name]
    ensures name !in IconMap ==> icon == Wind
  {
    if name in IconMap then IconMap[name] else Wind
  }

  /** `gradientMap[id] || ['#06B6D4', '#0891B2']`. */
  function GradientFor(id: int): (gradient: seq<string>)
    ensures id in GradientMap ==> gradient == GradientMap[id]
    ensures id !in GradientMap ==> gradient == Cyan
  {
    if id in GradientMap then GradientMap[id] else Cyan
  }

  /** The card built for one section. */
  function ToCategory(item: SectionItem): (category: Category)
    ensures category.id == item.id && category.title == item.name
    ensures category.icon == IconFor(item.name) && category.gradient == GradientFor(item.id)
  {
    Category(item.id, item.name, IconFor(item.name), GradientFor(item.id))
  }

  /** `data.map(item => ...)`: one card per section, in the response's order. */
  function ToCategories(data: seq<SectionItem>): (categories: seq<Category>)
    ensures |categories| == |data|
    ensures forall i :: 0 <= i < |data| ==> categories[i] == ToCategory(data[i])
  {
    seq(|data|, i requires 0 <= i < |data| => ToCategory(data[i]))
  }

  /** No entry of the icon table is the wind icon, so a card shows the wind
      exactly when its section's name is not in the table. */
  lemma WindIffUnknownName(name: string)
    ensures IconFor(name) == Wind <==> name !in IconMap
  {
  }

  /** Every entry of the gradient table is the default, so every card gets the
      cyan gradient whatever its id. */
  lemma EveryGradientIsCyan(id: int)
    ensures GradientFor(id) == Cyan
  {
  }

  /** Building cards from a concatenation is concatenating the cards. */
  lemma ToCategoriesOfConcat(a: seq<SectionItem>, b: seq<SectionItem>)
    ensures ToCategories(a + b) == ToCategories(a) + ToCategories(b)
  {
    var l, r := ToCategories(a + b), ToCategories(a) + ToCategories(b);
    assert |l| == |r|;
    forall i | 0 <= i < |l| ensures l[i] == r[i] {
      if i < |a| {
        assert (a + b)[i] == a[i];
      } else {
        assert (a + b)[i] == b[i - |a|];
      }
    }
  }

  /** The route parameters of a card press. */
  function HandleCategoryPress(userId: Option<int>, category: Category): (params: InfraParams)
    ensures params.userId == userId
    ensures params.sectionId == Some(category.id) && params.sectionName == Some(category.title)
  {
    InfraParams(userId, Some(category.id), Some(category.title))
  }

  /** Pressing the card of a section opens the infrastructure screen on that
      section: its id and name come back out of the navigation parameters. */
  lemma PressOpensItsSection(userId: Option<int>, data: seq<SectionItem>, i: int)
    requires 0 <= i < |data|
    ensures HandleCategoryPress(userId, ToCategories(data)[i]) ==
              InfraParams(userId, Some(data[i].id), Some(data[i].name))
  {
  }

  const LoadFailedAlert := Alert("Error", "Failed to load assessment categories. Please check your connection and try again.")

  class ScoreScreen {
    const userId: Option<int>
    var scoreCategories: seq<Category>
    var loading: bool

    constructor (userId: Option<int>)
      ensures this.userId == userId && scoreCategories == [] && loading
    {
      this.userId := userId;
      scoreCategories := [];
      loading := true;
    }

    /** `fetchScoreCategories`: an ok response replaces the cards with the ones
        built from it; a failure keeps the old cards. Loading ends either way. */
    method FetchScoreCategories(response: Response<seq<SectionItem>>) returns (alert: Option<Alert>)
      modifies this
      ensures scoreCategories == if response.Ok? then ToCategories(response.data) else old(scoreCategories)
      ensures alert == if response.Ok? then None else Some(LoadFailedAlert)
      ensures !loading
    {
      loading := true;
      if response.Ok? {
        var categories := ToCategories(response.data);
        scoreCategories := categories;
        alert := None;
      } else {
        alert := Some(LoadFailedAlert);
      }
      loading := false;
    }
  }

  /** Following a card press: the infrastructure screen opens on the card's
      section for the same user. */
  method OpenInfraScreen(userId: Option<int>, category: Category) returns (screen: Infra.InfraScreen)
    ensures fresh(screen)
    ensures screen.userId == userId && screen.sectionId == category.id
    ensures screen.scores == map[] && screen.submitting == map[] && screen.expandedSections == map[]
  {
    screen := new Infra.InfraScreen(Some(HandleCategoryPress(userId, category)));
  }
}
