/**
 * The dashboard row and the detail record are built from the same API body
 * by two separate transforms; for a listed body they agree.
 */
module Consistency {
  import opened Js
  import opened Bodies
  import Dashboard
  import ObjectDetail

  /**
   * A listed body is a planet in the catalogue exactly when its detail page
   * says "Planet", and a dwarf planet exactly when it says "Dwarf Planet";
   * name, moon count and discovery date agree, and the catalogue's zero
   * defaults are the detail record's missing values.
   */
  lemma RowAgreesWithDetail(b: Body, id: nat)
    requires Dashboard.IsListed(b)
    ensures var row := Dashboard.ToRow(b, id);
            var d := ObjectDetail.Transform(b);
            && (row.kind == Dashboard.PlanetKind <==> d.kind == Some(ObjectDetail.PlanetType))
            && (row.kind == Dashboard.DwarfKind <==> d.kind == Some(Dashboard.DwarfPlanetBodyType))
            && row.name == d.name && row.moons == d.moons && row.discoveryYear == d.discoveryDate
            && row.gravity == Or(d.gravity, 0.0) && row.density == Or(d.density, 0.0)
            && row.sideralOrbit == Or(d.sideralOrbit, 0.0)
            && row.sideralRotation == Or(d.sideralRotation, 0.0)
            && row.diameter == 2.0 * Or(d.meanRadius, 0.0)
  {
  }
}
