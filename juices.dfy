/** The juice products of constants.ts, shown by the carousel. */
module Juices {

  datatype Juice = Juice(
    id: string,
    name: string,
    description: string,
    baseColor: string,
    accentColor: string,
    sweetness: int,
    imageSeed: string,
    ingredients: seq<string>,
    potency: string)

  const JUICES: seq<Juice> := [
    Juice("1", "Void Essence", "A deep detox blend extracted from the midnight zone.",
          "#0f0518", "#7c3aed", 30, "obsidian",
          ["Maqui Berry", "Activated Charcoal", "Dark Matter", "Lime Zest"], "98% PURE"),
    Juice("2", "Solar Flare", "Liquid immunity forged in the heart of a dying star.",
          "#431407", "#f59e0b", 45, "sun",
          ["Raw Turmeric", "Ginger Root", "Cayenne Plasma", "Orange"], "RADIANT"),
    Juice("3", "Gaia\U{2019}s Tear", "Restoration fluid from the ancient world tree.",
          "#022c22", "#10b981", 60, "leaf",
          ["Ceremonial Matcha", "Spinach", "Spirit Mint", "Green Apple"], "VITAL"),
    Juice("4", "Neon Pulse", "A cybernetic energy boost for the digital soul.",
          "#380625", "#ec4899", 85, "neon",
          ["Dragon Fruit", "Lychee", "Coconut Water", "Guarana"], "OVERDRIVE")
  ]
}
