/** The bonus service (src/services/api/bonusService.js): bonus generation
    from a fixed catalogue of templates, and the bonus table. */
module BonusService {
  import opened JsValues
  import opened Tables
  import opened NumericIdTable
  import ProductService

  const BonusNotFound := "Bonus not found"

  /** What a bonus delivers and which product gap it answers. */
  datatype BonusContent = BonusContent(targetGap: string, components: seq<string>)

  /** A catalogue entry; `bonusType` is the template's `type`. */
  datatype Template = Template(
    title: string,
    bonusType: string,
    value: string,
    description: string,
    content: BonusContent)

  /** A generated bonus: a template stamped with an id, the product it was
      generated for and its creation time. */
  datatype Bonus = Bonus(
    id: string,
    productId: Value,
    title: string,
    bonusType: string,
    value: string,
    description: string,
    content: BonusContent,
    createdAt: string)

  const Templates: seq<Template> := [
    Template("P.E.A Profit Multiplier Toolkit", "Templates", "$297",
      "Pre-built automation templates that amplify your P.E.A Blueprint results by 300%",
      BonusContent("No pre-built email sequences", ["Email templates", "Landing pages", "Follow-up sequences"])),
    Template("5-Day Affiliate Cash Machine Course", "Training", "$497",
      "Exclusive video training that turns the commission system into a 24/7 profit machine",
      BonusContent("Limited bonus creation tools", ["Video modules", "Workbooks", "Action plans"])),
    Template("Social Media Domination Pack", "Templates", "$197",
      "Ready-to-use social media templates that drive massive traffic to your affiliate offers",
      BonusContent("No social media templates", ["Post templates", "Story templates", "Ad creatives"])),
    Template("Conversion Optimization Masterclass", "Training", "$397",
      "Advanced strategies to double your conversion rates using psychological triggers",
      BonusContent("Missing conversion optimization guides", ["Video training", "Checklists", "Split-test templates"])),
    Template("High-Converting Funnel Blueprint", "Templates", "$697",
      "Proven funnel templates that convert cold traffic into buying customers",
      BonusContent("No advanced funnel templates", ["Funnel templates", "Copy templates", "Design assets"]))
  ]

  /** How many templates generateBonuses hands out. */
  const GeneratedCount := 3

  /** The id of the `index`-th generated bonus, from one clock reading. */
  function BonusId(stamp: int, index: nat): string {
    "bonus_" + IntToString(stamp) + "_" + IntToString(index)
  }

  function FromTemplate(t: Template, productId: Value, id: string, createdAt: string): Bonus {
    Bonus(id, productId, t.title, t.bonusType, t.value, t.description, t.content, createdAt)
  }

  /** generateBonuses: the first three templates, in catalogue order, each
      stamped with the product id and with a clock reading for its id and
      for its creation time (`stamps[i]`, `createdAts[i]`). */
  function GenerateBonuses(productId: Value, stamps: seq<int>, createdAts: seq<string>): (r: seq<Bonus>)
    requires |stamps| == GeneratedCount && |createdAts| == GeneratedCount
    ensures |r| == GeneratedCount
    ensures forall i :: 0 <= i < |r| ==>
      r[i].productId == productId && r[i].id == BonusId(stamps[i], i) && r[i].createdAt == createdAts[i]
    ensures forall i :: 0 <= i < |r| ==>
      var t := Templates[i];
      r[i].title == t.title && r[i].bonusType == t.bonusType && r[i].value == t.value
      && r[i].description == t.description && r[i].content == t.content
  {
    seq(GeneratedCount, i requires 0 <= i < GeneratedCount =>
      FromTemplate(Templates[i], productId, BonusId(stamps[i], i), createdAts[i]))
  }

  /** The ids of one generation are pairwise different, whatever the clock
      reads: they end in different indices. */
  lemma GeneratedIdsDistinct(productId: Value, stamps: seq<int>, createdAts: seq<string>)
    requires |stamps| == GeneratedCount && |createdAts| == GeneratedCount
    ensures var r := GenerateBonuses(productId, stamps, createdAts);
      forall i, j :: 0 <= i < j < |r| ==> r[i].id != r[j].id
  {
    var r := GenerateBonuses(productId, stamps, createdAts);
    forall i, j | 0 <= i < j < |r|
      ensures r[i].id != r[j].id
    {
      assert r[i].id[|r[i].id| - 1] == DigitChar(i);
      assert r[j].id[|r[j].id| - 1] == DigitChar(j);
    }
  }

  /** Every generated bonus is a template or a training, with three
      components and a title. */
  lemma GeneratedBonusesWellFormed(productId: Value, stamps: seq<int>, createdAts: seq<string>)
    requires |stamps| == GeneratedCount && |createdAts| == GeneratedCount
    ensures var r := GenerateBonuses(productId, stamps, createdAts);
      forall i :: 0 <= i < |r| ==>
        r[i].bonusType in {"Templates", "Training"} && |r[i].content.components| == 3 && r[i].title != ""
  {
  }

  /** Bonus `i` answers gap `i` of the product analysis. */
  lemma BonusesTargetProductGaps(url: Value, now: int, analyzedAt: string, stamps: seq<int>, createdAts: seq<string>)
    requires |stamps| == GeneratedCount && |createdAts| == GeneratedCount
    ensures var product := ProductService.AnalyzeProduct(url, now, analyzedAt);
      var r := GenerateBonuses(Num(product.id), stamps, createdAts);
      forall i :: 0 <= i < |r| ==> r[i].content.targetGap == product.gaps[i]
  {
  }

  class BonusStore {
    var bonuses: seq<Record>

    /** The table as loaded from the bonus fixtures. */
    constructor (fixture: seq<Record>)
      ensures bonuses == fixture
    {
      bonuses := fixture;
    }

    /** getAll hands out the live table. */
    method GetAll() returns (r: seq<Record>)
      ensures r == bonuses
    {
      r := bonuses;
    }

    method GetById(id: Value) returns (r: Option<Record>)
      ensures r == LookupId(bonuses, id)
    {
      r := LookupId(bonuses, id);
    }

    /** create numbers the bonus after the largest Id in the table. */
    method Create(bonus: Record, createdAt: string) returns (newBonus: Record)
      requires |bonuses| > 0 && NumericIds(bonuses)
      modifies this
      ensures newBonus == NewRow(bonus, old(bonuses), createdAt)
      ensures bonuses == old(bonuses) + [newBonus]
    {
      newBonus := NewRow(bonus, bonuses, createdAt);
      bonuses := bonuses + [newBonus];
    }

    method Update(id: Value, updates: Record) returns (r: Completion<Record>)
      modifies this
      ensures IndexOfId(old(bonuses), id).None? ==> r == Throw(Error(BonusNotFound)) && bonuses == old(bonuses)
      ensures IndexOfId(old(bonuses), id).Some? ==>
        var i := IndexOfId(old(bonuses), id).value;
        bonuses == MergeAt(old(bonuses), i, updates) && r == Return(bonuses[i])
    {
      var index := IndexOfId(bonuses, id);
      if index.None? {
        return Throw(Error(BonusNotFound));
      }
      bonuses := MergeAt(bonuses, index.value, updates);
      r := Return(bonuses[index.value]);
    }

    method Delete(id: Value) returns (r: Completion<bool>)
      modifies this
      ensures IndexOfId(old(bonuses), id).None? ==> r == Throw(Error(BonusNotFound)) && bonuses == old(bonuses)
      ensures IndexOfId(old(bonuses), id).Some? ==>
        r == Return(true) && bonuses == RemoveAt(old(bonuses), IndexOfId(old(bonuses), id).value)
    {
      var index := IndexOfId(bonuses, id);
      if index.None? {
        return Throw(Error(BonusNotFound));
      }
      bonuses := RemoveAt(bonuses, index.value);
      r := Return(true);
    }
  }
}
