/** The static activity data: five curated destination catalogs and the
    nine-entry generic catalog used for every other destination, in
    declaration order (that order is what the generator's fallback picks
    index into). Costs are per activity, durations in hours. */
module CatalogData {
  import opened Wrappers
  import opened Schema

  const HawaiiCatalog: seq<Activity> := [
      // mockTravelData.ts:6
      Activity("hawaii_beach_waikiki", "Beach Day at Waikiki",
        "Relax and swim at Hawaii's most famous beach",
        0.0, 3.0, GeneralActivity, "beach", 4.7,
        Some("https://images.unsplash.com/photo-1507525428034-b723cf961d3e"),
        Some("Waikiki Beach")),
      // mockTravelData.ts:18
      Activity("hawaii_hike_diamond", "Diamond Head Hike",
        "Iconic crater hike with panoramic views",
        5.0, 2.5, GeneralActivity, "hiking", 4.8,
        Some("https://images.unsplash.com/photo-1551632811-561732d1e306"),
        Some("Diamond Head State Monument")),
      // mockTravelData.ts:30
      Activity("hawaii_snorkel_hanauma", "Snorkeling at Hanauma Bay",
        "Swim with tropical fish in pristine waters",
        25.0, 4.0, GeneralActivity, "water_sports", 4.9,
        Some("https://images.unsplash.com/photo-1544551763-46a013bb70d5"),
        Some("Hanauma Bay Nature Preserve")),
      // mockTravelData.ts:42
      Activity("hawaii_kayak_adventure", "Kayaking Adventure",
        "Paddle through calm waters and explore hidden coves",
        75.0, 2.5, GeneralActivity, "water_sports", 4.8,
        Some("https://images.unsplash.com/photo-1544551763-77ef2d0cfc6c"),
        Some("Kailua Bay")),
      // mockTravelData.ts:54
      Activity("hawaii_cultural_center", "Polynesian Cultural Center",
        "Immersive cultural experience with traditional villages",
        95.0, 4.0, GeneralActivity, "cultural", 4.6,
        Some("https://images.unsplash.com/photo-1578662996442-48f60103fc96"),
        Some("Laie")),
      // mockTravelData.ts:66
      Activity("hawaii_submarine_tour", "Atlantis Submarine Adventure",
        "Underwater adventure to see coral reefs and marine life",
        109.0, 1.5, GeneralActivity, "tours", 4.9,
        Some("https://images.unsplash.com/photo-1559827260-dc66d52bef19"),
        Some("Waikiki")),
      // mockTravelData.ts:78
      Activity("hawaii_helicopter_tour", "Helicopter Island Tour",
        "Aerial views of volcanoes, waterfalls, and coastlines",
        200.0, 1.0, GeneralActivity, "tours", 4.9,
        None,
        Some("Honolulu")),
      // mockTravelData.ts:89
      Activity("hawaii_surfing_lesson", "Surfing Lesson",
        "Learn to surf with professional instructors",
        85.0, 2.0, GeneralActivity, "water_sports", 4.7,
        None,
        Some("Waikiki Beach")),
      // mockTravelData.ts:101
      Activity("hawaii_market_chinatown", "Chinatown Market Tour",
        "Explore local vendors and authentic cuisine",
        40.0, 2.0, GeneralActivity, "cultural", 4.5,
        Some("https://images.unsplash.com/photo-1488459716781-31db52582fe9"),
        Some("Chinatown")),
      // mockTravelData.ts:113
      Activity("hawaii_pearl_harbor", "Pearl Harbor Historic Tour",
        "Visit the historic World War II memorial site",
        35.0, 4.0, GeneralActivity, "historical", 4.8,
        None,
        Some("Pearl Harbor")),
      // mockTravelData.ts:124
      Activity("hawaii_botanical_garden", "Lyon Arboretum Hike",
        "Explore tropical plants and peaceful trails",
        5.0, 2.5, GeneralActivity, "nature", 4.6,
        None,
        Some("Manoa Valley")),
      // mockTravelData.ts:136
      Activity("hawaii_dinner_dukes", "Duke's Waikiki Dinner",
        "Oceanfront dining with fresh seafood",
        120.0, 2.0, Dining, "seafood", 4.6,
        Some("https://images.unsplash.com/photo-1544025162-d76694265947"),
        Some("Waikiki")),
      // mockTravelData.ts:148
      Activity("hawaii_luau_traditional", "Traditional Luau Experience",
        "Authentic Hawaiian cultural dinner show",
        220.0, 3.0, Dining, "cultural", 4.7,
        None,
        Some("Ko Olina")),
      // mockTravelData.ts:159
      Activity("hawaii_sunset_cruise", "Sunset Dinner Cruise",
        "Romantic dinner cruise with ocean views",
        150.0, 3.0, GeneralActivity, "cruise", 4.8,
        None,
        Some("Honolulu Harbor")),
      // mockTravelData.ts:170
      Activity("hawaii_nightlife_honolulu", "Honolulu Nightlife Tour",
        "Experience the best bars and live music venues",
        80.0, 4.0, GeneralActivity, "nightlife", 4.4,
        None,
        Some("Honolulu")),
      // mockTravelData.ts:181
      Activity("hawaii_fine_dining_orchids", "Orchids Restaurant",
        "Upscale dining with Hawaiian fusion cuisine",
        180.0, 2.5, Dining, "fine_dining", 4.9,
        None,
        Some("Waikiki"))
  ]

  const ParisCatalog: seq<Activity> := [
      // mockTravelData.ts:194
      Activity("paris_eiffel_tower", "Eiffel Tower Visit",
        "Iconic iron tower with city views",
        25.0, 2.0, GeneralActivity, "landmark", 4.8,
        None,
        Some("Champ de Mars")),
      // mockTravelData.ts:205
      Activity("paris_louvre_museum", "Louvre Museum",
        "World's largest art museum",
        17.0, 4.0, GeneralActivity, "museum", 4.7,
        None,
        Some("1st Arrondissement")),
      // mockTravelData.ts:216
      Activity("paris_seine_cruise", "Seine River Cruise",
        "Scenic boat tour through the heart of Paris",
        45.0, 1.5, GeneralActivity, "cruise", 4.6,
        None,
        Some("Seine River")),
      // mockTravelData.ts:227
      Activity("paris_montmartre_walk", "Montmartre Walking Tour",
        "Explore the artistic heart of Paris",
        15.0, 3.0, GeneralActivity, "cultural", 4.7,
        None,
        Some("Montmartre")),
      // mockTravelData.ts:238
      Activity("paris_cafe_dinner", "Traditional French Bistro",
        "Authentic French cuisine experience",
        65.0, 2.0, Dining, "local", 4.6,
        None,
        Some("Latin Quarter")),
      // mockTravelData.ts:249
      Activity("paris_nightlife", "Champs-\U{00C9}lys\U{00E9}es Nightlife",
        "Experience Parisian nightlife scene",
        80.0, 4.0, GeneralActivity, "nightlife", 4.4,
        None,
        Some("Champs-\U{00C9}lys\U{00E9}es"))
  ]

  const IcelandCatalog: seq<Activity> := [
      // mockTravelData.ts:262
      Activity("iceland_blue_lagoon", "Blue Lagoon Geothermal Spa",
        "Relax in natural geothermal waters",
        90.0, 3.0, GeneralActivity, "nature", 4.8,
        None,
        Some("Grindav\U{00ED}k")),
      // mockTravelData.ts:273
      Activity("iceland_northern_lights", "Northern Lights Tour",
        "Chase the aurora borealis",
        120.0, 4.0, GeneralActivity, "tours", 4.9,
        None,
        Some("Reykjavik")),
      // mockTravelData.ts:284
      Activity("iceland_golden_circle", "Golden Circle Tour",
        "Visit geysers, waterfalls, and national parks",
        85.0, 8.0, GeneralActivity, "tours", 4.8,
        None,
        Some("Thingvellir")),
      // mockTravelData.ts:295
      Activity("iceland_glacier_hike", "Glacier Hiking Adventure",
        "Explore pristine glacial landscapes",
        150.0, 6.0, GeneralActivity, "hiking", 4.9,
        None,
        Some("Vatnaj\U{00F6}kull")),
      // mockTravelData.ts:306
      Activity("iceland_seafood_restaurant", "Reykjavik Seafood House",
        "Fresh Atlantic seafood dining",
        110.0, 2.0, Dining, "seafood", 4.7,
        None,
        Some("Reykjavik")),
      // mockTravelData.ts:317
      Activity("iceland_viking_museum", "National Museum of Iceland",
        "Learn about Viking history and culture",
        20.0, 3.0, GeneralActivity, "museum", 4.5,
        None,
        Some("Reykjavik"))
  ]

  const TokyoCatalog: seq<Activity> := [
      // mockTravelData.ts:330
      Activity("tokyo_temple_visit", "Senso-ji Temple",
        "Ancient Buddhist temple in Asakusa",
        0.0, 2.0, GeneralActivity, "cultural", 4.8,
        None,
        Some("Asakusa")),
      // mockTravelData.ts:341
      Activity("tokyo_sushi_dinner", "Traditional Sushi Experience",
        "Authentic sushi at a traditional restaurant",
        180.0, 2.0, Dining, "asian", 4.9,
        None,
        Some("Ginza")),
      // mockTravelData.ts:352
      Activity("tokyo_shibuya_crossing", "Shibuya Crossing Experience",
        "Experience the world's busiest intersection",
        0.0, 1.0, GeneralActivity, "landmark", 4.6,
        None,
        Some("Shibuya")),
      // mockTravelData.ts:363
      Activity("tokyo_mount_fuji_tour", "Mount Fuji Day Trip",
        "Visit Japan's iconic mountain",
        200.0, 10.0, GeneralActivity, "tours", 4.8,
        None,
        Some("Mount Fuji")),
      // mockTravelData.ts:374
      Activity("tokyo_karaoke_night", "Karaoke Night in Shinjuku",
        "Sing the night away in private karaoke rooms",
        50.0, 3.0, GeneralActivity, "nightlife", 4.7,
        None,
        Some("Shinjuku")),
      // mockTravelData.ts:385
      Activity("tokyo_ramen_tour", "Ramen Walking Tour",
        "Taste authentic ramen at local shops",
        75.0, 3.0, Dining, "asian", 4.8,
        None,
        Some("Shibuya"))
  ]

  const NewYorkCatalog: seq<Activity> := [
      // mockTravelData.ts:398
      Activity("nyc_central_park", "Central Park Stroll",
        "Walk through Manhattan's green oasis",
        0.0, 2.0, GeneralActivity, "nature", 4.7,
        None,
        Some("Central Park")),
      // mockTravelData.ts:409
      Activity("nyc_broadway_show", "Broadway Musical",
        "Experience world-class theater",
        150.0, 3.0, GeneralActivity, "cultural", 4.9,
        None,
        Some("Times Square")),
      // mockTravelData.ts:420
      Activity("nyc_pizza_tour", "NYC Pizza Walking Tour",
        "Taste authentic New York pizza slices",
        65.0, 3.0, Dining, "american", 4.6,
        None,
        Some("Brooklyn")),
      // mockTravelData.ts:431
      Activity("nyc_statue_liberty", "Statue of Liberty Ferry",
        "Visit America's symbol of freedom",
        30.0, 4.0, GeneralActivity, "landmark", 4.8,
        None,
        Some("Liberty Island")),
      // mockTravelData.ts:442
      Activity("nyc_rooftop_bar", "Manhattan Rooftop Bar",
        "Cocktails with skyline views",
        120.0, 3.0, GeneralActivity, "nightlife", 4.5,
        None,
        Some("Manhattan")),
      // mockTravelData.ts:453
      Activity("nyc_fine_dining", "Michelin Star Restaurant",
        "World-class fine dining experience",
        250.0, 3.0, Dining, "fine_dining", 4.8,
        None,
        Some("Manhattan"))
  ]

  const GenericCatalog: seq<Activity> := [
      // mockTravelData.ts:469
      Activity("generic_city_walk", "City Walking Tour",
        "Explore the historic downtown area and main landmarks",
        25.0, 3.0, GeneralActivity, "cultural", 4.5,
        None,
        Some("City Center")),
      // mockTravelData.ts:480
      Activity("generic_local_restaurant", "Local Restaurant Experience",
        "Taste authentic local cuisine at a recommended restaurant",
        60.0, 2.0, Dining, "local", 4.4,
        None,
        Some("Downtown")),
      // mockTravelData.ts:491
      Activity("generic_museum", "Local History Museum",
        "Learn about the area's culture and history",
        15.0, 2.5, GeneralActivity, "museum", 4.3,
        None,
        Some("Cultural District")),
      // mockTravelData.ts:502
      Activity("generic_nature_activity", "Scenic Nature Experience",
        "Enjoy the natural beauty of the surrounding area",
        30.0, 4.0, GeneralActivity, "nature", 4.6,
        None,
        Some("Natural Area")),
      // mockTravelData.ts:513
      Activity("generic_market_visit", "Local Market Visit",
        "Browse local vendors and artisan shops",
        20.0, 2.0, GeneralActivity, "cultural", 4.2,
        None,
        Some("Market District")),
      // mockTravelData.ts:524
      Activity("generic_nightlife", "Evening Entertainment",
        "Experience the local nightlife scene",
        75.0, 3.0, GeneralActivity, "nightlife", 4.1,
        None,
        Some("Entertainment District")),
      // mockTravelData.ts:535
      Activity("generic_cafe_lunch", "Local Caf\U{00E9} Lunch",
        "Casual dining at a popular local caf\U{00E9}",
        35.0, 1.5, Dining, "local", 4.3,
        None,
        Some("Caf\U{00E9} District")),
      // mockTravelData.ts:546
      Activity("generic_guided_tour", "Guided City Tour",
        "Professional guide shows you the highlights",
        50.0, 3.0, GeneralActivity, "tours", 4.5,
        None,
        Some("Various Locations")),
      // mockTravelData.ts:557
      Activity("generic_fine_dining", "Upscale Dinner Experience",
        "High-quality dining at a recommended restaurant",
        120.0, 2.5, Dining, "fine_dining", 4.7,
        None,
        Some("Fine Dining District"))
  ]

}
