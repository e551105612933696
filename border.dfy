/**
  The border treatments of `fastfilters_border_treatment_t`. The enumeration itself is
  declared in a header that is not part of this model: only the two treatments the scalar
  dispatcher names are told apart, every other enumerator is identified by a code.
*/
module BorderTreatment {

  datatype Border = Mirror | Optimistic | OtherBorder(code: nat)
}
