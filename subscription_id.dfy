/** SquareSubscriptionIdExtractor: the subscription id of an order, probed through
    the accessors the order object happens to have, in a fixed order. */
module SubscriptionId {
  import opened Php
  import opened Host

  /** The custom-field probe: `s25SubscriptionId ?? s25_subscription_id`, kept only
      when it is a string. A custom-field value that is not an array reads as null. */
  function FromCustomFields(customFields: Value): (r: Option<string>)
    ensures Get(customFields, "s25SubscriptionId") != Null ==> r == AsString(Get(customFields, "s25SubscriptionId"))
    ensures Get(customFields, "s25SubscriptionId") == Null ==> r == AsString(Get(customFields, "s25_subscription_id"))
  {
    AsString(OrElse(Get(customFields, "s25SubscriptionId"), Get(customFields, "s25_subscription_id")))
  }

  /** extract */
  function Extract(o: OrderObject): (r: Option<string>)
    ensures o.s25Getter.Some? ==> r == AsString(o.s25Getter.value)
    ensures o.s25Getter.None? && o.genericGet.Some? && o.genericGet.value.Str? ==> r == Some(o.genericGet.value.s)
    ensures (o.s25Getter.None? && (o.genericGet.None? || !o.genericGet.value.Str?)
             && o.arrayOffset.Some? && o.arrayOffset.value.Str?) ==> r == Some(o.arrayOffset.value.s)
    ensures (o.s25Getter.None? && (o.genericGet.None? || !o.genericGet.value.Str?)
             && (o.arrayOffset.None? || !o.arrayOffset.value.Str?) && o.customFieldsGetter.Some?) ==>
      r == FromCustomFields(o.customFieldsGetter.value)
    ensures (o.s25Getter.None? && (o.genericGet.None? || !o.genericGet.value.Str?)
             && (o.arrayOffset.None? || !o.arrayOffset.value.Str?) && o.customFieldsGetter.None?) ==> r.None?
  {
    if o.s25Getter.Some? then AsString(o.s25Getter.value)
    else if o.genericGet.Some? && o.genericGet.value.Str? then Some(o.genericGet.value.s)
    else if o.arrayOffset.Some? && o.arrayOffset.value.Str? then Some(o.arrayOffset.value.s)
    else if o.customFieldsGetter.Some? then FromCustomFields(o.customFieldsGetter.value)
    else None
  }

  /** Whatever is found is one of the probed values, and it is a string there. */
  lemma ExtractIsProbed(o: OrderObject)
    requires Extract(o).Some?
    ensures var v := Str(Extract(o).value);
      || o.s25Getter == Some(v)
      || o.genericGet == Some(v)
      || o.arrayOffset == Some(v)
      || (o.customFieldsGetter.Some?
          && (Get(o.customFieldsGetter.value, "s25SubscriptionId") == v
              || Get(o.customFieldsGetter.value, "s25_subscription_id") == v))
  {
  }

  /** A dedicated getter decides alone: a non-string from it is null even when a later
      probe holds a string. */
  lemma GetterDecidesAlone(o: OrderObject)
    requires o.s25Getter.Some? && !o.s25Getter.value.Str?
    ensures Extract(o).None?
  {
  }
}
