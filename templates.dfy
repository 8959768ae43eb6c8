/**
 * The template table built by the plugin's constructor
 * (app/static/script/app/plugins/WMSGetFeatureInfo.js, lines 47-62): one
 * template per (feature type, display mode) pair, plus the line templates
 * used for rate entries and opening-hour entries. The table is constant
 * after construction.
 */
module Templates {
  import opened Wrappers

  /** The application's display mode (app.constants.AVAILABILITY / PRICING). */
  datatype Mode = Availability | Pricing

  /** An Ext.Template, identified by its pattern text. */
  datatype Template = Template(text: string)

  /** Looking up a pair that the table does not hold: the source dereferences
      an undefined entry there. */
  datatype TemplateError = MissingTemplate(featureType: string, mode: Mode)

  const BLOCKFACE_AVAILABILITY: string := "BLOCKFACE_AVAILABILITY"
  const OSP_AVAILABILITY: string := "OSP_AVAILABILITY"

  const BLOCKFACE_AVAILABILITY_TEMPLATE: Template :=
    Template("<span class=\"itemHeading itemHeadingStreet\">{STREET_NAME} ({ADDR_RANGE})</span><span class=\"fullDisplay\"><a id=\"streetview\" href=\"#\">Street view</a></span><br/><span>{AVAIL_MSG}</span><br/>")
  const BLOCKFACE_PRICING_TEMPLATE: Template :=
    Template("<span class=\"itemHeading itemHeadingStreet\">{STREET_NAME} ({ADDR_RANGE})</span><br/>{RATE}")
  const OSP_AVAILABILITY_TEMPLATE: Template :=
    Template("<span class=\"itemHeading itemHeadingStreet\">{NAME}</span><br/><span class=\"fullDisplay\">{ADDRESS} (<a id=\"streetview\" href=\"#\">Street view</a>)<br/></span><span class=\"fullDisplay\">{PHONE}<br/></span><span>{AVAIL_MSG}</span><br/>")
  const OSP_PRICING_TEMPLATE: Template :=
    Template("<span class=\"itemHeading itemHeadingStreet\">{NAME}</span><br/>{RATE}")

  /** One line per rate-schedule entry. */
  const RATE_TEMPLATE: Template :=
    Template("<span class=\"rateTimes\">{TIME}{DESC}</span> <span class=\"rateQualifier\">{RATE}</span><br/>")
  /** One line per opening-hours entry. */
  const HOUR_TEMPLATE: Template := Template("{DAYS} {TIME}<br/>")

  /** The table `this.templates`, keyed by feature type and then by mode. */
  function TemplateTable(): map<string, map<Mode, Template>>
  {
    map[BLOCKFACE_AVAILABILITY := map[Availability := BLOCKFACE_AVAILABILITY_TEMPLATE,
                                      Pricing := BLOCKFACE_PRICING_TEMPLATE],
        OSP_AVAILABILITY := map[Availability := OSP_AVAILABILITY_TEMPLATE,
                                Pricing := OSP_PRICING_TEMPLATE]]
  }

  /** `this.templates[featureType][mode]`: defined for exactly the two
      registered feature types (in either mode); any other feature type is
      an error. */
  function Lookup(featureType: string, mode: Mode): (r: Result<Template, TemplateError>)
    ensures r.Ok? <==> featureType == BLOCKFACE_AVAILABILITY || featureType == OSP_AVAILABILITY
    ensures r.Ok? ==> |r.value.text| > 0
    ensures r.Err? ==> r.error == MissingTemplate(featureType, mode)
  {
    var table := TemplateTable();
    assert table.Keys == {BLOCKFACE_AVAILABILITY, OSP_AVAILABILITY};
    assert table[BLOCKFACE_AVAILABILITY].Keys == table[OSP_AVAILABILITY].Keys == {Availability, Pricing};
    assert mode == Availability || mode == Pricing;
    if featureType in table && mode in table[featureType] then Ok(table[featureType][mode])
    else Err(MissingTemplate(featureType, mode))
  }

  /** The four registered pairs select four different templates: each
      (feature type, mode) pair has its own presentation. */
  lemma LookupInjective(t1: string, m1: Mode, t2: string, m2: Mode)
    requires Lookup(t1, m1).Ok? && Lookup(t2, m2).Ok?
    ensures Lookup(t1, m1).value == Lookup(t2, m2).value <==> t1 == t2 && m1 == m2
  {
  }
}
