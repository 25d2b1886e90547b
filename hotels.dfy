/** The hotel records shown on the globe (components/LHWVisualization.tsx).
    The records are opaque to the globe: it only needs their identity and the
    order of the list. */
module Hotels {

  datatype Hotel = Hotel(
    id: string,
    name: string,
    location: string,
    image: string,
    price: string,
    rating: real)

  /** The twelve base hotels, in source order. */
  const BASE_HOTELS: seq<Hotel> := [
    Hotel("1", "The Ritz Paris", "Paris, France", "https://picsum.photos/seed/paris/600/900", "\U{20AC}2,400", 5.0),
    Hotel("2", "Hotel Adlon", "Berlin, Germany", "https://picsum.photos/seed/berlin/600/900", "\U{20AC}1,100", 4.9),
    Hotel("3", "Imperial Hotel", "Tokyo, Japan", "https://picsum.photos/seed/tokyo/600/900", "\U{A5}85,000", 4.9),
    Hotel("4", "Le Sirenuse", "Positano, Italy", "https://picsum.photos/seed/positano/600/900", "\U{20AC}3,200", 5.0),
    Hotel("5", "Burj Al Arab", "Dubai, UAE", "https://picsum.photos/seed/dubai/600/900", "AED 9,000", 5.0),
    Hotel("6", "The Plaza", "New York, USA", "https://picsum.photos/seed/nyc/600/900", "$1,800", 4.8),
    Hotel("7", "Claridge\U{2019}s", "London, UK", "https://picsum.photos/seed/london/600/900", "\U{A3}1,500", 4.9),
    Hotel("8", "Marina Bay", "Singapore", "https://picsum.photos/seed/singapore/600/900", "S$900", 4.7),
    Hotel("9", "The Savoy", "London, UK", "https://picsum.photos/seed/savoy/600/900", "\U{A3}1,200", 4.8),
    Hotel("10", "La Mamounia", "Marrakech", "https://picsum.photos/seed/morocco/600/900", "MAD 8,000", 4.9),
    Hotel("11", "Amangiri", "Utah, USA", "https://picsum.photos/seed/utah/600/900", "$3,400", 5.0),
    Hotel("12", "Soneva Jani", "Maldives", "https://picsum.photos/seed/maldives/600/900", "$4,100", 5.0)
  ]

  /** The list laid out on the sphere: the base list twice, for density. */
  const HOTELS: seq<Hotel> := BASE_HOTELS + BASE_HOTELS

  /** HOTELS has 24 entries, and entry i + 12 is the same record as entry i. */
  lemma HotelsDoubled()
    ensures |BASE_HOTELS| == 12 && |HOTELS| == 24
    ensures forall i :: 0 <= i < 12 ==> HOTELS[i] == HOTELS[i + 12] == BASE_HOTELS[i]
  {
  }
}
