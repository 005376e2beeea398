/** The image shown beside the weather: `iconosClima[tiempo.description] || default`. */
module Icons {
  datatype Icon = Sunny | Cloudy | Rainy | Storm | DefaultIcon

  /** The four described icons; every value is an image, hence truthy. */
  const IconosClima: map<string, Icon> := map[
    "soleado" := Sunny,
    "nublado" := Cloudy,
    "lluvioso" := Rainy,
    "tormenta" := Storm
  ]

  /** The icon for a description, falling back to the default image for every other key. */
  function IconFor(description: string): Icon
  {
    if description in IconosClima then IconosClima[description] else DefaultIcon
  }

  /** Each of the four keys gets its own icon. */
  lemma IconForKeys()
    ensures IconFor("soleado") == Sunny && IconFor("nublado") == Cloudy
    ensures IconFor("lluvioso") == Rainy && IconFor("tormenta") == Storm
  {
  }

  /** The default icon is chosen exactly for the descriptions outside the four keys. */
  lemma IconForDefaultIff(description: string)
    ensures IconFor(description) == DefaultIcon <==>
      description != "soleado" && description != "nublado" &&
      description != "lluvioso" && description != "tormenta"
  {
  }

  /** Distinct keys give distinct icons: the lookup loses nothing among the four. */
  lemma IconForInjective(a: string, b: string)
    requires IconFor(a) != DefaultIcon && IconFor(a) == IconFor(b)
    ensures a == b
  {
  }
}
