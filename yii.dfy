/** The small part of the Yii framework that the Song and Review models rely on:
    the criteria object that search() fills in, the sort attribute map, the data
    provider it returns, the shapes of rules() and relations(), and PHP's
    truthiness of a database value.  Framework internals that the models never
    show (LIKE escaping, empty-value skipping, mergeWith's combination rules)
    are deliberately not reproduced: compare() is a plain append. */
module Yii {

  datatype Option<T> = None | Some(value: T)

  /** The boolean operator a condition is combined with (compare's fourth argument). */
  datatype Op = And | Or

  /** One call of CDbCriteria::compare: column, value (None for PHP null),
      partial-match flag and combining operator. */
  datatype Condition = Condition(column: string, value: Option<string>, partial: bool, op: Op)

  /** What a criteria object holds at the end of a search: its conditions in
      the order they were added, its join text ("" when none was set), and
      whether caller criteria were merged in, recorded as the number of
      conditions present at the moment of the merge. */
  datatype CriteriaValue = CriteriaValue(conditions: seq<Condition>, join: string, mergedAt: Option<nat>)

  function Columns(cs: seq<Condition>): (cols: seq<string>)
    ensures |cols| == |cs|
    ensures forall i :: 0 <= i < |cs| ==> cols[i] == cs[i].column
  {
    if cs == [] then [] else [cs[0].column] + Columns(cs[1..])
  }

  /** A criteria object that search() mutates step by step. */
  class DbCriteria {
    var conditions: seq<Condition>
    var join: string
    var mergedAt: Option<nat>

    constructor ()
      ensures conditions == [] && join == "" && mergedAt == None
    {
      conditions := [];
      join := "";
      mergedAt := None;
    }

    function Value(): (v: CriteriaValue)
      reads this
      ensures v.conditions == conditions && v.join == join && v.mergedAt == mergedAt
    {
      CriteriaValue(conditions, join, mergedAt)
    }

    /** compare(column, value, partial, op): appends one condition. */
    method Compare(column: string, value: Option<string>, partial: bool, op: Op)
      modifies this
      ensures conditions == old(conditions) + [Condition(column, value, partial, op)]
      ensures join == old(join) && mergedAt == old(mergedAt)
    {
      conditions := conditions + [Condition(column, value, partial, op)];
    }

    /** Assignment to the public join property. */
    method SetJoin(text: string)
      modifies this
      ensures join == text
      ensures conditions == old(conditions) && mergedAt == old(mergedAt)
    {
      join := text;
    }

    /** mergeWith(other): the other criteria are opaque here, so only the
        fact and the moment of the merge are recorded. */
    method MergeWith()
      modifies this
      ensures mergedAt == Some(|conditions|)
      ensures conditions == old(conditions) && join == old(join)
    {
      mergedAt := Some(|conditions|);
    }
  }

  /** One entry of CSort::attributes: the key a grid column sorts by and the
      ORDER BY fragments for the two directions. */
  datatype SortAttribute = SortAttribute(key: string, asc: string, desc: string)

  /** The model class a data provider is rooted on. */
  datatype Root = SongRoot | SongGenreRoot | ReviewRoot

  /** A CActiveDataProvider as search() builds it: root model, criteria and
      the sort attribute map (None when search() supplies no CSort). */
  datatype DataProvider = DataProvider(root: Root, criteria: CriteriaValue, sort: Option<seq<SortAttribute>>)

  /** One entry of rules(): attribute names, validator name and the
      scenarios listed under 'on' (already split at commas). */
  datatype Rule = Rule(attributes: seq<string>, validator: string, on: seq<string>)

  /** The names of the attributes a "safe" rule declares safe in the given
      scenario; a rule with an empty 'on' list applies to every scenario. */
  function SafeAttributeNames(rules: seq<Rule>, scenario: string): (names: set<string>)
    ensures forall a :: a in names <==>
      exists i :: 0 <= i < |rules| && rules[i].validator == "safe"
        && (rules[i].on == [] || scenario in rules[i].on) && a in rules[i].attributes
  {
    if rules == [] then {}
    else
      var here := if rules[0].validator == "safe" && (rules[0].on == [] || scenario in rules[0].on)
                  then set a | a in rules[0].attributes else {};
      var rest := SafeAttributeNames(rules[1..], scenario);
      assert forall i :: 1 <= i < |rules| ==> rules[i] == rules[1..][i - 1];
      here + rest
  }

  datatype RelationKind = BelongsTo | HasMany

  /** One entry of relations(): name, kind, related class, foreign key and
      the intermediate relation for a 'through' relation. */
  datatype Relation = Relation(name: string, kind: RelationKind, className: string,
                               foreignKey: string, through: Option<string>)

  /** The first relation declared under the given name, as an array key lookup. */
  function FindRelation(relations: seq<Relation>, name: string): (r: Option<Relation>)
    ensures r.Some? ==> r.value in relations && r.value.name == name
    ensures r.None? <==> forall i :: 0 <= i < |relations| ==> relations[i].name != name
  {
    if relations == [] then None
    else if relations[0].name == name then Some(relations[0])
    else
      var r := FindRelation(relations[1..], name);
      assert forall i :: 1 <= i < |relations| ==> relations[i] == relations[1..][i - 1];
      r
  }

  /** PHP truthiness of a column value as the database driver returns it:
      null, "" and "0" are false, every other string is true. */
  predicate Truthy(v: Option<string>)
  {
    v.Some? && v.value != "" && v.value != "0"
  }
}
