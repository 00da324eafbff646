/** The place record shared by the catalogue, the filters and the lookups
    (src/types/index.ts). Only the fields the modelled logic reads are kept. */
module Places {
  import opened Js

  /** `PlaceCategory` */
  datatype Category =
    | Nature | Heritage | Festival | Food | Tribal | Temple | Caves | Waterfalls
    | Historical | ArtCraft | Event

  /** A place. `rating` is in tenths of a star (4.5 is 45); `distance` is
      the optional free-text distance such as "12 km". */
  datatype Place = Place(id: string, title: string, category: Category, rating: nat, distance: Option<string>)
}
