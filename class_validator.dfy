/** The class-validator decorators the request bodies declare, as predicates
    on one property value. */
module ClassValidator {
  import opened Js

  /** `@IsString()` */
  predicate IsString(v: JsValue) { v.Str? }

  /** `@IsNotEmpty()`: anything but "", null and undefined. */
  predicate IsNotEmpty(v: JsValue) { v != Str("") && v != Null && v != Undefined }

  /** `@MinLength(n)`: a string of at least n characters. */
  predicate MinLength(v: JsValue, n: nat) { v.Str? && |v.text| >= n }

  /** `@IsNumber()`: a number (the model has no NaN or infinities). */
  predicate IsNumber(v: JsValue) { v.Num? }

  /** `@Min(m)`: a number no smaller than m. */
  predicate Min(v: JsValue, m: real) { v.Num? && v.number >= m }

  /** `@IsEnum(values)` with an array of strings: strictly equal to one of them. */
  predicate IsEnum(v: JsValue, values: seq<string>) { v.Str? && v.text in values }
}
