/**
 * The base ORM model: the two column validators that bound text lengths,
 * and the generic attribute update driven by each model class's key lists.
 */
module Models {

  import opened Results
  import opened Errors
  import opened Settings

  /** The Python values that reach a validator or an update. */
  datatype Value =
    | NoneValue
    | Bool(b: bool)
    | Int(i: int)
    | Unicode(text: string)
      /** A Python 2 byte string: not a `unicode`. */
    | Bytes(bytes: string)
      /** A dict, as the sequence of pairs `iteritems` yields. */
    | Dict(items: seq<(Value, Value)>)

  /** gltextv: the value must be unicode, within the length bounds of its attribute. */
  function GlTextV(attr: string, value: Value): (r: Result<Value, Error>)
    ensures !value.Unicode? ==> r == Failure(InvalidInputFormat)
    ensures attr == "name" && value.Unicode? ==>
              (r.Success? <==> 1 <= |value.text| <= NameLimit)
    ensures attr == "description" && value.Unicode? ==>
              (r.Success? <==> |value.text| <= DescriptionLimit)
    ensures attr != "name" && attr != "description" && value.Unicode? ==>
              (r.Success? <==> |value.text| <= GenericLimit)
    ensures r.Success? ==> r.value == value
    ensures r.Failure? ==> r.error == InvalidInputFormat
  {
    if !value.Unicode? then
      Failure(InvalidInputFormat)
    else if attr == "name" && (|value.text| > NameLimit || |value.text| == 0) then
      Failure(InvalidInputFormat)
    else if attr == "description" && |value.text| > DescriptionLimit then
      Failure(InvalidInputFormat)
    else if attr != "name" && attr != "description" && |value.text| > GenericLimit then
      Failure(InvalidInputFormat)
    else
      Success(value)
  }

  /** A subvalue the dict check accepts: a non-unicode one, or unicode within the limit. */
  predicate SubvalueWithin(v: Value, limit: nat)
  {
    v.Unicode? ==> |v.text| <= limit
  }

  /** The loop of gldictv over `iteritems`: no unicode subvalue is longer than `limit`. */
  function SubvaluesWithin(items: seq<(Value, Value)>, limit: nat): (ok: bool)
    ensures ok <==> forall i :: 0 <= i < |items| ==> SubvalueWithin(items[i].1, limit)
  {
    if items == [] then true
    else if items[0].1.Unicode? && |items[0].1.text| > limit then false
    else SubvaluesWithin(items[1..], limit)
  }

  /** gldictv: the value must be a dict, none of whose unicode subvalues passes the generic limit. */
  function GlDictV(attr: string, value: Value): (r: Result<Value, Error>)
    ensures !value.Dict? ==> r == Failure(InvalidInputFormat)
    ensures value == Dict([]) ==> r == Success(value)
    ensures value.Dict? ==>
              (r.Success? <==>
                 forall i :: 0 <= i < |value.items| ==>
                   (value.items[i].1.Unicode? ==> |value.items[i].1.text| <= GenericLimit))
    ensures r.Success? ==> r.value == value
    ensures r.Failure? ==> r.error == InvalidInputFormat
  {
    if !value.Dict? then
      Failure(InvalidInputFormat)
    else if value.items == [] then
      Success(value)
    else if !SubvaluesWithin(value.items, GenericLimit) then
      Failure(InvalidInputFormat)
    else
      Success(value)
  }

  /** The validator a column is declared with. */
  datatype Validator = TextValidator | DictValidator

  function Validate(validator: Validator, attr: string, value: Value): Result<Value, Error>
  {
    match validator
    case TextValidator => GlTextV(attr, value)
    case DictValidator => GlDictV(attr, value)
  }

  /**
   * Python's unicode() and int() on a value, each either a result or an
   * exception (None); bool() never raises and is Truth.
   */
  datatype Conversions = Conversions(toUnicode: Value -> Option<string>, toInt: Value -> Option<int>)

  /** Python 2 truthiness: bool(value). */
  function Truth(v: Value): bool
  {
    match v
    case NoneValue => false
    case Bool(b) => b
    case Int(i) => i != 0
    case Unicode(text) => text != ""
    case Bytes(bytes) => bytes != ""
    case Dict(items) => items != []
  }

  datatype KeyKind = UnicodeKey | IntKey | BoolKey

  function Convert(kind: KeyKind, v: Value, conv: Conversions): Option<Value>
  {
    match kind
    case UnicodeKey => (match conv.toUnicode(v) case Some(s) => Some(Unicode(s)) case None => None)
    case IntKey => (match conv.toInt(v) case Some(n) => Some(Int(n)) case None => None)
    case BoolKey => Some(Bool(Truth(v)))
  }

  /** Why an update stopped: KeyError, the conversion's exception, or the column's validator. */
  datatype UpdateError = MissingKey(key: string) | BadValue(key: string) | Invalid(key: string)
  {
    function Key(): string
    {
      match this
      case MissingKey(k) => k
      case BadValue(k) => k
      case Invalid(k) => k
    }
  }

  /** Whether `setattr(self, key, kind(attrs[key]))` goes through, validator included. */
  predicate Settable(validators: map<string, Validator>, key: string, kind: KeyKind,
                     attrs: map<string, Value>, conv: Conversions)
  {
    && key in attrs
    && Convert(kind, attrs[key], conv).Some?
    && (key in validators ==> Validate(validators[key], key, Convert(kind, attrs[key], conv).value).Success?)
  }

  datatype Assigned = Assigned(attributes: map<string, Value>, outcome: Outcome<UpdateError>)

  /**
   * One of the loops of Model.update: each key in turn is read from `attrs`,
   * converted and set, and the first failure stops the loop with the
   * attributes set so far. Success means every key was settable (and then
   * each holds its converted value: SetKeysAssigns); attributes not named
   * are untouched.
   */
  function SetKeys(validators: map<string, Validator>, attributes: map<string, Value>, keys: seq<string>,
                   kind: KeyKind, attrs: map<string, Value>, conv: Conversions): (r: Assigned)
    ensures forall k :: k in attributes && k !in keys ==> k in r.attributes && r.attributes[k] == attributes[k]
    ensures forall k :: k in r.attributes ==> k in attributes || k in keys
    ensures r.outcome == Pass <==> forall i :: 0 <= i < |keys| ==> Settable(validators, keys[i], kind, attrs, conv)
    ensures r.outcome.Fail? ==>
              r.outcome.error.Key() in keys && !Settable(validators, r.outcome.error.Key(), kind, attrs, conv)
    decreases |keys|
  {
    if keys == [] then
      Assigned(attributes, Pass)
    else
      var k := keys[0];
      if k !in attrs then
        Assigned(attributes, Fail(MissingKey(k)))
      else
        match Convert(kind, attrs[k], conv)
        case None => Assigned(attributes, Fail(BadValue(k)))
        case Some(v) =>
          var checked := if k in validators then Validate(validators[k], k, v) else Success(v);
          if checked.Failure? then
            Assigned(attributes, Fail(Invalid(k)))
          else
            var rest := SetKeys(validators, attributes[k := checked.value], keys[1..], kind, attrs, conv);
            assert forall k' :: k' in keys[1..] ==> k' in keys;
            assert forall i :: 1 <= i < |keys| ==> keys[i] == keys[1..][i - 1];
            rest
  }

  /**
   * After a successful loop every key of the list holds its converted value
   * (a key listed twice is set twice to the same value).
   */
  lemma {:induction false} SetKeysAssigns(validators: map<string, Validator>, attributes: map<string, Value>,
                                          keys: seq<string>, kind: KeyKind, attrs: map<string, Value>,
                                          conv: Conversions, i: nat)
    requires i < |keys|
    requires SetKeys(validators, attributes, keys, kind, attrs, conv).outcome == Pass
    ensures keys[i] in attrs && Convert(kind, attrs[keys[i]], conv).Some?
    ensures var r := SetKeys(validators, attributes, keys, kind, attrs, conv);
            keys[i] in r.attributes && r.attributes[keys[i]] == Convert(kind, attrs[keys[i]], conv).value
    decreases |keys|
  {
    assert Settable(validators, keys[i], kind, attrs, conv);
    var k := keys[0];
    var v := Convert(kind, attrs[k], conv).value;
    var checked := if k in validators then Validate(validators[k], k, v) else Success(v);
    var next := attributes[k := checked.value];
    assert SetKeys(validators, attributes, keys, kind, attrs, conv)
           == SetKeys(validators, next, keys[1..], kind, attrs, conv);
    if i == 0 {
      if k in keys[1..] {
        var j :| 0 <= j < |keys[1..]| && keys[1..][j] == k;
        SetKeysAssigns(validators, next, keys[1..], kind, attrs, conv, j);
      }
    } else {
      assert keys[i] == keys[1..][i - 1];
      SetKeysAssigns(validators, next, keys[1..], kind, attrs, conv, i - 1);
    }
  }

  /** Model.update on a dict: the unicode keys, then the int keys, then the bool keys. */
  function UpdateAll(validators: map<string, Validator>, attributes: map<string, Value>,
                     unicodeKeys: seq<string>, intKeys: seq<string>, boolKeys: seq<string>,
                     attrs: map<string, Value>, conv: Conversions): (r: Assigned)
    ensures forall k :: k in attributes && k !in unicodeKeys && k !in intKeys && k !in boolKeys ==>
              k in r.attributes && r.attributes[k] == attributes[k]
    ensures r.outcome == Pass <==>
              && (forall i :: 0 <= i < |unicodeKeys| ==> Settable(validators, unicodeKeys[i], UnicodeKey, attrs, conv))
              && (forall i :: 0 <= i < |intKeys| ==> Settable(validators, intKeys[i], IntKey, attrs, conv))
              && (forall i :: 0 <= i < |boolKeys| ==> Settable(validators, boolKeys[i], BoolKey, attrs, conv))
  {
    var u := SetKeys(validators, attributes, unicodeKeys, UnicodeKey, attrs, conv);
    if u.outcome.Fail? then u
    else
      var n := SetKeys(validators, u.attributes, intKeys, IntKey, attrs, conv);
      if n.outcome.Fail? then n
      else SetKeys(validators, n.attributes, boolKeys, BoolKey, attrs, conv)
  }

  /**
   * After a successful update every listed key holds its value from
   * `attrs`, converted by the last list naming it: bool over int over unicode.
   */
  lemma UpdateAllAssigns(validators: map<string, Validator>, attributes: map<string, Value>,
                         unicodeKeys: seq<string>, intKeys: seq<string>, boolKeys: seq<string>,
                         attrs: map<string, Value>, conv: Conversions, k: string)
    requires UpdateAll(validators, attributes, unicodeKeys, intKeys, boolKeys, attrs, conv).outcome == Pass
    requires k in unicodeKeys || k in intKeys || k in boolKeys
    ensures k in attrs
    ensures var r := UpdateAll(validators, attributes, unicodeKeys, intKeys, boolKeys, attrs, conv);
            && k in r.attributes
            && (k in boolKeys ==> r.attributes[k] == Bool(Truth(attrs[k])))
            && (k in intKeys && k !in boolKeys ==> r.attributes[k] == Convert(IntKey, attrs[k], conv).value)
            && (k in unicodeKeys && k !in intKeys && k !in boolKeys ==>
                  r.attributes[k] == Convert(UnicodeKey, attrs[k], conv).value)
  {
    var u := SetKeys(validators, attributes, unicodeKeys, UnicodeKey, attrs, conv);
    var n := SetKeys(validators, u.attributes, intKeys, IntKey, attrs, conv);
    var b := SetKeys(validators, n.attributes, boolKeys, BoolKey, attrs, conv);
    if k in boolKeys {
      var i :| 0 <= i < |boolKeys| && boolKeys[i] == k;
      SetKeysAssigns(validators, n.attributes, boolKeys, BoolKey, attrs, conv, i);
    } else if k in intKeys {
      var i :| 0 <= i < |intKeys| && intKeys[i] == k;
      SetKeysAssigns(validators, u.attributes, intKeys, IntKey, attrs, conv, i);
    } else {
      var i :| 0 <= i < |unicodeKeys| && unicodeKeys[i] == k;
      SetKeysAssigns(validators, attributes, unicodeKeys, UnicodeKey, attrs, conv, i);
    }
  }

  /** A Storm model object: its attribute values and the class's key lists and validators. */
  class Model {
    const unicodeKeys: seq<string>
    const intKeys: seq<string>
    const boolKeys: seq<string>
    const validators: map<string, Validator>
    var attributes: map<string, Value>

    /** A fresh object holding its columns' defaults, before __init__ runs. */
    constructor Empty(unicodeKeys: seq<string>, intKeys: seq<string>, boolKeys: seq<string>,
                      validators: map<string, Validator>, defaults: map<string, Value>)
      ensures this.unicodeKeys == unicodeKeys && this.intKeys == intKeys && this.boolKeys == boolKeys
      ensures this.validators == validators && attributes == defaults
    {
      this.unicodeKeys := unicodeKeys;
      this.intKeys := intKeys;
      this.boolKeys := boolKeys;
      this.validators := validators;
      attributes := defaults;
    }

    /** One loop of update: set each key of `keys` from `attrs` until one fails. */
    method SetKeysFrom(keys: seq<string>, kind: KeyKind, attrs: map<string, Value>, conv: Conversions)
      returns (r: Outcome<UpdateError>)
      modifies this`attributes
      ensures Assigned(attributes, r) == SetKeys(validators, old(attributes), keys, kind, attrs, conv)
    {
      var i := 0;
      while i < |keys|
        invariant 0 <= i <= |keys|
        invariant SetKeys(validators, attributes, keys[i..], kind, attrs, conv)
                  == SetKeys(validators, old(attributes), keys, kind, attrs, conv)
      {
        var k := keys[i];
        assert keys[i..][0] == k && keys[i..][1..] == keys[i + 1..];
        if k !in attrs {
          return Fail(MissingKey(k));
        }
        var converted := Convert(kind, attrs[k], conv);
        if converted.None? {
          return Fail(BadValue(k));
        }
        var value := converted.value;
        if k in validators {
          var checked := Validate(validators[k], k, value);
          if checked.Failure? {
            return Fail(Invalid(k));
          }
          value := checked.value;
        }
        attributes := attributes[k := value];
        i := i + 1;
      }
      r := Pass;
    }

    /** Model.update: None changes nothing; a dict goes through the three loops in order. */
    method Update(attrs: Option<map<string, Value>>, conv: Conversions) returns (r: Outcome<UpdateError>)
      modifies this`attributes
      ensures attrs.None? ==> r == Pass && attributes == old(attributes)
      ensures attrs.Some? ==>
                Assigned(attributes, r)
                == UpdateAll(validators, old(attributes), unicodeKeys, intKeys, boolKeys, attrs.value, conv)
    {
      if attrs.None? {
        return Pass;
      }
      r := SetKeysFrom(unicodeKeys, UnicodeKey, attrs.value, conv);
      if r.Fail? {
        return;
      }
      r := SetKeysFrom(intKeys, IntKey, attrs.value, conv);
      if r.Fail? {
        return;
      }
      r := SetKeysFrom(boolKeys, BoolKey, attrs.value, conv);
    }

    /** Model.__init__: an object whose update raised is never handed out. */
    static method New(unicodeKeys: seq<string>, intKeys: seq<string>, boolKeys: seq<string>,
                      validators: map<string, Validator>, defaults: map<string, Value>,
                      attrs: Option<map<string, Value>>, conv: Conversions)
      returns (r: Result<Model, UpdateError>)
      ensures attrs.None? ==> r.Success? && r.value.attributes == defaults
      ensures attrs.Some? ==>
                var u := UpdateAll(validators, defaults, unicodeKeys, intKeys, boolKeys, attrs.value, conv);
                && (r.Success? <==> u.outcome == Pass)
                && (r.Success? ==> r.value.attributes == u.attributes)
                && (r.Failure? ==> r.error == u.outcome.error)
      ensures r.Success? ==> fresh(r.value)
      ensures r.Success? ==>
                && r.value.unicodeKeys == unicodeKeys && r.value.intKeys == intKeys
                && r.value.boolKeys == boolKeys && r.value.validators == validators
    {
      var m := new Model.Empty(unicodeKeys, intKeys, boolKeys, validators, defaults);
      var outcome := m.Update(attrs, conv);
      if outcome.Fail? {
        return Failure(outcome.error);
      }
      r := Success(m);
    }
  }
}
