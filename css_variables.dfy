/**
  The CSS custom-property extraction of a page analysis
  (tests/randw-style-analysis.spec.ts:104-114): walk the computed properties of the
  document root and keep those whose name starts with "--".
 */
module CssVariables {

  predicate IsCustomProperty(name: string) {
    |name| >= 2 && name[..2] == "--"
  }

  /** `properties` are the names `styles[0..styles.length)`; `valueOf` is `styles.getPropertyValue`. */
  method ExtractCssVariables(properties: seq<string>, valueOf: string -> string) returns (variables: map<string, string>)
    ensures forall p :: p in variables <==> p in properties && IsCustomProperty(p)
    ensures forall p :: p in variables ==> variables[p] == valueOf(p)
  {
    variables := map[];
    var i := 0;
    while i < |properties|
      invariant 0 <= i <= |properties|
      invariant forall p :: p in variables <==> p in properties[..i] && IsCustomProperty(p)
      invariant forall p :: p in variables ==> variables[p] == valueOf(p)
    {
      var property := properties[i];
      if IsCustomProperty(property) {
        variables := variables[property := valueOf(property)];
      }
      assert properties[..i + 1] == properties[..i] + [property];
      i := i + 1;
    }
    assert properties[..i] == properties;
  }
}
